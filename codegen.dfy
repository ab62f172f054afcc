/**
 * `generatePlaywrightCode` (background.js:360-380): the test for the
 * chosen language, JavaScript for any language it does not know.
 */
module CodeGeneration {
  import opened Actions
  import JavaScriptRenderer
  import TypeScriptRenderer
  import PythonRenderer
  import JavaRenderer

  /** `generatePlaywrightCode`; `fileName` is the session's file name, which every header uses. */
  function PlaywrightCode(fileName: string, actions: seq<Action>, language: string): string {
    if language == "javascript" then JavaScriptRenderer.Code(fileName, actions)
    else if language == "typescript" then TypeScriptRenderer.Code(fileName, actions)
    else if language == "python" then PythonRenderer.Code(fileName, actions)
    else if language == "java" then JavaRenderer.Code(fileName, actions)
    else JavaScriptRenderer.Code(fileName, actions)
  }

  /** A language the generator does not list, an empty one included, gets the JavaScript test. */
  lemma UnknownLanguageIsJavaScript(fileName: string, actions: seq<Action>, language: string)
    requires language != "javascript" && language != "typescript" && language != "python" && language != "java"
    ensures PlaywrightCode(fileName, actions, language) == JavaScriptRenderer.Code(fileName, actions)
  {
  }
}
