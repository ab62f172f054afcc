/**
 * The background script's recording session (background.js:1-137,
 * 233-288): the module globals `isRecording`, `recordedActions`,
 * `actionCount`, `currentFileName` and `currentLanguage`, and the message
 * cases that change them.  A file handed to `downloadFile` is returned as
 * a `Download`; delivering it is left to the browser.
 */
module Session {
  import opened Text
  import opened Actions
  import CodeGeneration

  /** A file the session asks the browser to save. */
  datatype Download = Download(fileName: string, content: string)

  /** The reply to `getRecordingStatus`. */
  datatype Status = Status(isRecording: bool, actionCount: nat, fileName: string, language: string)

  /** The name of the file a test is saved under. */
  function SpecFileName(fileName: string): string {
    fileName + ".spec.js"
  }

  class RecordingSession {
    var isRecording: bool
    var recordedActions: seq<Action>
    var actionCount: nat
    var currentFileName: string
    var currentLanguage: string

    /** The count the popup shows is the number of recorded actions. */
    ghost predicate Valid()
      reads this
    {
      actionCount == |recordedActions|
    }

    /** The globals as the script starts. */
    constructor ()
      ensures Valid()
      ensures !isRecording && recordedActions == [] && currentFileName == "" && currentLanguage == "javascript"
    {
      isRecording := false;
      recordedActions := [];
      actionCount := 0;
      currentFileName := "";
      currentLanguage := "javascript";
    }

    /** `getRecordingStatus` */
    function RecordingStatus(): (s: Status)
      reads this
      requires Valid()
      ensures s.actionCount == |recordedActions|
      ensures s.isRecording == isRecording && s.fileName == currentFileName && s.language == currentLanguage
    {
      Status(isRecording, actionCount, currentFileName, currentLanguage)
    }

    /** `startRecording`: a new, empty recording under the given name and language. */
    method StartRecording(fileName: string, language: string) returns (count: nat, name: string)
      modifies this
      ensures Valid()
      ensures isRecording && recordedActions == [] && currentFileName == fileName && currentLanguage == language
      ensures count == 0 && name == fileName
    {
      isRecording := true;
      recordedActions := [];
      actionCount := 0;
      currentFileName := fileName;
      currentLanguage := language;
      count, name := actionCount, currentFileName;
    }

    /** The `recordAction` message: the action is kept only while recording. */
    method RecordAction(actionData: Action)
      requires Valid()
      modifies this`recordedActions, this`actionCount
      ensures Valid()
      ensures recordedActions == if isRecording then old(recordedActions) + [actionData] else old(recordedActions)
    {
      if isRecording {
        recordedActions := recordedActions + [actionData];
        actionCount := actionCount + 1;
      }
    }

    /**
     * The `pageUnloading` message: while recording, a page being left with
     * a non-empty address adds a navigation to it, stamped `now`.
     */
    method PageUnloading(url: Option<string>, now: int)
      requires Valid()
      modifies this`recordedActions, this`actionCount
      ensures Valid()
      ensures recordedActions == if isRecording && url.Some? && url.value != "" then old(recordedActions) + [UnloadNavigation(url.value, now)] else old(recordedActions)
    {
      if isRecording && url.Some? && url.value != "" {
        recordedActions := recordedActions + [UnloadNavigation(url.value, now)];
        actionCount := actionCount + 1;
      }
    }

    /** `generateTestFile`: the session's test, named after the session. */
    method GenerateTestFile() returns (download: Download)
      ensures download == Download(SpecFileName(currentFileName), CodeGeneration.PlaywrightCode(currentFileName, recordedActions, currentLanguage))
    {
      var testCode := CodeGeneration.PlaywrightCode(currentFileName, recordedActions, currentLanguage);
      download := Download(SpecFileName(currentFileName), testCode);
    }

    /**
     * `stopRecording`: recording ends, the actions stay, and a file is
     * produced only when there is at least one action.
     */
    method StopRecording() returns (download: Option<Download>)
      requires Valid()
      modifies this`isRecording
      ensures Valid() && !isRecording
      ensures download.Some? <==> recordedActions != []
      ensures download.Some? ==> download.value == Download(SpecFileName(currentFileName), CodeGeneration.PlaywrightCode(currentFileName, recordedActions, currentLanguage))
    {
      isRecording := false;
      if |recordedActions| > 0 {
        var file := GenerateTestFile();
        download := Some(file);
      } else {
        download := None;
      }
    }

    /**
     * `generateScriptFromActions`: a test for the given actions and language,
     * saved under the given name; its title still names the session's file.
     */
    method GenerateScript(actions: seq<Action>, fileName: string, language: string) returns (download: Download)
      ensures download == Download(SpecFileName(fileName), CodeGeneration.PlaywrightCode(currentFileName, actions, language))
    {
      var testCode := CodeGeneration.PlaywrightCode(currentFileName, actions, language);
      download := Download(SpecFileName(fileName), testCode);
    }

    /** The `forceDownload` message: the session's test, or the error when nothing was recorded. */
    method ForceDownload() returns (download: Option<Download>)
      ensures download.Some? <==> recordedActions != []
      ensures download.Some? ==> download.value == Download(SpecFileName(currentFileName), CodeGeneration.PlaywrightCode(currentFileName, recordedActions, currentLanguage))
    {
      if |recordedActions| > 0 {
        var file := GenerateTestFile();
        download := Some(file);
      } else {
        download := None;
      }
    }
  }

  /** The navigation `pageUnloading` records: a type, an address and a time, nothing else. */
  function UnloadNavigation(url: string, now: int): (a: Action)
    ensures a.kind == Navigate && a.url == Some(url) && a.timestamp == now
    ensures a.selector == NoSelector && a.framePath == []
  {
    Bare(Navigate, NoSelector).(url := Some(url), timestamp := now)
  }

  /** Every recording starts empty, whatever came before. */
  method StartForgetsEarlierRecording(s: RecordingSession, a: Action)
    requires s.Valid()
    modifies s
    ensures s.recordedActions == [a] && s.actionCount == 1
  {
    s.RecordAction(a);
    var _, _ := s.StartRecording("again", "javascript");
    s.RecordAction(a);
  }

  /** Once stopped, the session records nothing more until started again. */
  method StoppedSessionIgnoresActions(s: RecordingSession, a: Action, url: string)
    requires s.Valid()
    modifies s
    ensures s.recordedActions == old(s.recordedActions) && s.actionCount == old(s.actionCount)
  {
    var _ := s.StopRecording();
    s.RecordAction(a);
    s.PageUnloading(Some(url), 0);
  }
}
