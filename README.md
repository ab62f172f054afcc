# Playwright recorder extension, modelled in Dafny

This project models the decision rules and text generation of a browser
extension that records what a user does on a web page and writes a
Playwright test from it. It has three parts.

- **Content script** (`content.js`). It turns DOM events into action
  records:
  - `generateSelector` picks a locator strategy from a priority ladder.
  - `generatePathSelector`, `generateFrameSelector` and
    `generateShadowSelector` build CSS paths by walking the ancestor chain.
  - `determineActionType` classifies an event.
  - `shouldSkipAction` filters actions against the last recorded one.
  - `cleanActionData` truncates and trims values.
  - Typing is recorded only when the value changed.
- **Background script** (`background.js`). It keeps the recording session:
  `isRecording`, `recordedActions`, `actionCount`, the file name and the
  language. It turns the actions into a test in one of four languages:
  - `cleanActionsForCode` filters the actions, for JavaScript only.
  - Three frame-prefix builders write the frame and shadow-root prefixes.
  - `getKeyDescription` writes key-press comments.
  - `generatePlaywrightCode` dispatches on the language.
- **Popup** (`popup.js`). Its step editor keeps the shown list
  (`currentActions`) and a working copy (`editedActions`). It supports
  delete, move, save and cancel, and builds a plain-text preview.

The DOM is modelled as values:
- An element is a record of its tag name, attributes, text, labels, form
  state and the number of document matches for `#<id>`.
- It also carries its ancestor chain below `document.body`. Each node of
  the chain carries its count of same-tag siblings and its index among
  them. `document.body` itself has an empty chain.
- `id`, `alt` and `aria-label` are read as their attributes, which they
  reflect on every element. The other properties the selectors read are
  fields of their own, because they do not always follow an attribute:
  - `name`, `placeholder` and `title` may be `undefined`: on a `div`, a
    `name` or `placeholder` attribute gives no property.
  - `typeof className === 'string'` is false on SVG elements, so their
    classes are never used.
  - An iframe's `src` is the resolved address. An empty `src` attribute
    gives the page's address.
- Layout and style queries (visibility, viewport, disabled, cursor) arrive
  as booleans.

Time, the current address and the frame path are parameters. JavaScript's
`===` on selectors is modelled explicitly:
- A selector object never equals another one. Actions cross a message
  boundary and are copied.
- A string selector compares by value.
- `undefined` equals `undefined`.

Template-literal text is also explicit: an object prints as
`[object Object]` and an absent field prints as `undefined`.

Code that changes state step by step is imperative Dafny, each part proved
against a specification function:
- `generatePathSelector`, `generateFrameSelector`, `cleanActionsForCode`,
  the frame-prefix builders, the four generators and
  `generatePreviewCode` are methods with loops.
- The session store, the content script's filter state and the popup
  editor are classes whose methods update their fields.

The selector ladder, the event classification, `getKeyDescription` and
the language dispatch are functions.

The model follows the code in these places, where the code behaves
otherwise than one would expect of a test recorder:
- Only the JavaScript generator cleans and filters actions. One might
  expect all four languages to drop the same repeated and insignificant
  actions. The TypeScript, Python and Java generators instead write every
  action as it stands.
- One might expect actions to be grouped by page and each selector to be
  written with the Playwright locator for its strategy (`getByTestId`,
  `getByRole`, …). The generators do neither: they interpolate the
  selector object, which prints as `[object Object]`.
- One might expect a password field's value to be written as `***`.
  `cleanActionData` deletes `element` before it checks for a password
  field, so it never masks a value.
- A scroll exactly 100 px from the last kept position is kept: the filter
  drops only a difference below 100.

## Model

| member | source | states |
|---|---|---|
| SelectorResolver.FirstNonBlank | content.js:17-23 | the test-id attribute chosen is the first of `data-testid`, `data-test`, `data-qa`, `data-cy` whose value is non-blank; every earlier one is blank; none chosen means all are blank |
| SelectorResolver.RoleName | content.js:27-31 | the role rule's name is the `aria-label` when present, else the trimmed text when shorter than 50 characters, else empty |
| SelectorResolver.GenerateSelector | content.js:16-81 | first match wins, each rung exactly when every earlier one fails and its own test holds: a non-blank test id (the first of the four attributes); a role with a non-empty name; the first label's trimmed, non-empty text; a non-blank `placeholder` property; an `IMG` with non-blank alt text; a non-blank `title` property; a non-blank id with exactly one document match, as `#id`; a non-blank `name` property; a string class name that is not blank, as `[class="…"]` with blank runs collapsed; otherwise the CSS path |
| SelectorResolver.TestIdBeatsUniqueId | content.js:17-24 | a non-blank `data-testid` wins even over a unique id |
| SelectorResolver.NonUniqueIdFallsToName | content.js:62-69 | an id matched more than once does not give `#id`; resolution falls through to the name |
| SelectorResolver.UndefinedPropertiesSkipped | content.js:46-68 | a `placeholder` or `name` the element's interface does not define is `undefined`, so those rungs are skipped whatever the attributes |
| SelectorResolver.SvgClassesIgnored | content.js:71-76 | an element whose `className` is not a string (SVG) never gets the class rung: it gets the CSS path |
| SelectorResolver.BodyGetsEmptyPath | content.js:89 | `document.body`, when no rung applies, gets the empty path, since the walk never enters its loop |
| SelectorResolver.Chain | content.js:89 | the walked chain is empty exactly for `document.body` |
| SelectorResolver.UsableClasses | content.js:100-102 | a piece is kept exactly when it is non-blank and not prefixed `js-` or `ng-`; every usable piece is kept, and when all pieces are usable the list is unchanged |
| SelectorResolver.UsableClassesAppend | content.js:101 | `.filter` keeps the pieces in their order: filtering a concatenation concatenates the two filtered parts |
| SelectorResolver.FirstTwo | content.js:102 | `.slice(0, 2)`: at most two, a prefix of the list, the whole list when it is short |
| SelectorResolver.PathClasses | content.js:99-106 | a path segment keeps the first two usable pieces of the blank-separated class name, or all of them when there are fewer |
| SelectorResolver.NthChild | content.js:110-117 | `:nth-child(k)` is written exactly when there is more than one same-tag sibling, with `k` the 1-based index among them |
| SelectorResolver.PathWalkLength | content.js:89-96 | the walk visits at most five nodes and no more than the chain holds |
| SelectorResolver.GeneratePathSelector | content.js:84-124 | the loop with `unshift`, `break` on an id and the depth counter returns `PathSelector`: the visited segments, outermost first, joined by ` > ` |
| SelectorResolver.PathStopsAtFirstId | content.js:92-96 | when the first node with a non-blank id lies within reach, the walk visits exactly the nodes up to it |
| SelectorResolver.PathWithoutId | content.js:89 | without an id within reach, the walk visits `min(5, chain length)` nodes |
| SelectorResolver.PathIdOnlyAtTop | content.js:92-96 | only the last visited node can carry an id, so `#id` can only be the leading segment |
| SelectorResolver.PathSegmentsOrder | content.js:119 | segment `j` of the path is that of the node `j` places from the outermost visited one, because every segment is put in front |
| SelectorResolver.MapReversedIndex | content.js:119 | a list built by repeated `unshift` holds the images in reverse visiting order |
| SelectorResolver.FrameWalkLength | content.js:207-214 | the iframe walk has no depth limit and stops on the first node with an id: every node before the last visited one has no id, and the last visited one has an id unless the walk reached the end of the chain |
| SelectorResolver.GenerateFrameSelector | content.js:190-236 | the method returns `FrameSelector` |
| SelectorResolver.FrameSelector | content.js:190-236 | the selector is `#id` for a non-empty id; else `iframe[name="…"]` for a truthy `name` property; else `iframe[src*="<last piece of src>"]` for a non-empty resolved `src`; else the iframe path walk |
| SelectorResolver.GenerateFramePath | content.js:204-235 | the walk loop returns the segments of the visited nodes (every class of a string class name kept), outermost first, joined by ` > ` |
| SelectorResolver.ShadowSelector | content.js:238-251 | a shadow host gives `#id`; else, when its class name is a string with a non-blank class, all its classes as `.c1.c2` (starting with a dot); else its CSS path |
| SelectorResolver.GetElementValue | content.js:127-155 | a checkbox gives its checked flag; a radio its value when checked and null otherwise; a file input its file names joined by `, `; any other input, a single select and a textarea their value; a multiple select the selected values; any other element its trimmed text |
| FramePrefix.Prefix | background.js:591-607 | every prefix starts with `page.`; an empty path gives exactly `page.` |
| FramePrefix.GenerateFramePrefix | background.js:591-607 | the loop returns `page.` followed, in path order, by `frameLocator('s').` per iframe step and `locator('s').shadowRoot.` per shadow step |
| FramePrefix.GeneratePythonFramePrefix | background.js:831-847 | the same structure with `frame_locator('s').` and `locator('s').shadow_root.` |
| FramePrefix.GenerateJavaFramePrefix | background.js:966-982 | the same structure with double quotes, `frameLocator("s").` and `locator("s").shadowRoot().` |
| FramePrefix.PrefixSnoc | background.js:598-604 | one more step appends its text to the prefix |
| FramePrefix.StepsTextAppend | background.js:598-604 | the prefix of a joined path is the prefix of the first part followed by the steps of the second |
| FramePrefix.OtherStepsIgnored | background.js:599-603 | steps of any other type add nothing: a path made only of them gives `page.` |
| FramePrefix.PrefixMatchesFramePathString | background.js:591-607 | for a path of iframe and shadow steps, the prefix is `page.` + `getFramePathString` + `.` (content.js:260-268) |
| Classifier.DetermineActionType | content.js:271-423 | each event family yields only its own kinds of action; hover only with title, aria-label, `dropdown` or `tooltip`; focus only on form fields, `tabindex` or role `button`; blur only on form fields; a click always yields an action; a scroll only when it moved more than 100 px; input/change only on form fields; any other event yields nothing |
| Classifier.ClickPrecedence | content.js:304-352 | each click kind exactly when its rule is the first to apply: double click, then right click, then submit (a form, or a button whose type is submit), then check, upload, select; `click` exactly when none of them applies |
| Classifier.KeyAllowList | content.js:372-406 | a key event is recorded exactly for Ctrl/Meta with c, v, x or a; Enter on input or textarea; Escape; Tab; an arrow key |
| Classifier.PlainLetterIgnored | content.js:379-405 | a plain lower-case letter without Ctrl or Meta is never recorded from the keyboard |
| Recorder.CleanValue | content.js:550-567 | a typed string longer than 100 becomes its first 100 characters + `...` (length 103); `***` appears only if it was typed; the TypeError cases are exactly a long typed array and a truthy non-string upload; everything else is unchanged |
| Recorder.UploadKeepsFileName | content.js:563-567 | an uploaded path keeps its longest tail without `/` or `\`, which is the whole path or follows a separator |
| Recorder.CleanActionData | content.js:545-572 | `element` is removed, the value is cleaned, every other field is kept |
| Recorder.CleanIdempotent | content.js:545-572 | cleaning a cleaned action changes nothing |
| Recorder.CleanValueIdempotent | content.js:556-567 | a truncated value truncates to itself; a file name has no separator left |
| Recorder.Skip | content.js:461-541 | skips everything when not recording and a `===` repeat within 500 ms; otherwise a navigation is kept exactly when it goes to an address other than the last navigation's, a hover exactly when its element has a title or aria-label, a focus or blur exactly when on a form field, a click exactly when its element is absent or clickable, a scroll exactly when it has no position or moved at least 100 px from the last kept one, and every other kind always; a skipped action leaves the state unchanged; a kept one becomes the last action and updates the navigation address and scroll position |
| Recorder.RepeatWithinWindowDropped | content.js:470-475 | an action with a string or absent selector let through is dropped when repeated within 500 ms |
| Recorder.ScrollOfExactlyMinimumKept | content.js:523-531 | a scroll exactly 100 px from the last kept position is kept and becomes the new position |
| Recorder.ObjectSelectorsNeverRepeat | content.js:470-472 | a selector object is never `===` the stored one, so a typed action carrying one is always let through while recording |
| Recorder.Stamped | content.js:432-441 | the action sent carries the time, the page address and the frame path, has no element, and keeps its type and selector |
| Recorder.ContentRecorder.ShouldSkipAction | content.js:461-541 | the method's verdict and new filter state are those of `Skip` |
| Recorder.ContentRecorder.RecordAction | content.js:426-458 | nothing is sent when skipped; otherwise the stamped, cleaned action |
| Recorder.ContentRecorder.Start | content.js:1113-1130 | recording starts and a navigation to the page's address goes through `recordAction`: the filter state becomes `Skip`'s and the action sent is nothing when skipped, else the navigation stamped with the time, the address and the frame path; a first or changed address outside a 500 ms repeat is sent, and becomes the last action and the last navigation |
| Recorder.ContentRecorder.Stop | content.js:1132-1137 | recording stops |
| Recorder.ContentRecorder.OnTypingSettled | content.js:677-689 | a settled value `===` the field's last recorded value sends nothing and changes nothing; otherwise the action goes through the filter and the field's last value is updated even when the filter skips it, but not when cleaning the action throws |
| Cleanup.Step | background.js:523-554 | a dropped action leaves the pass unchanged; a kept one is appended and becomes `lastAction`, and a kept navigation sets `lastUrl` |
| Cleanup.CleanActionsForCode | background.js:518-557 | the `forEach` loop returns `Cleaned`, the fold of `Step` |
| Cleanup.CleanedIsSubsequence | background.js:519-553 | the cleaned list is an order-preserving subsequence of the input |
| Cleanup.LastActionIsLastKept | background.js:552-553 | `lastAction` is the last kept action |
| Cleanup.NoQuickRepeats | background.js:525-530 | no kept action repeats the one kept before it (same type, `===` selector, under 1000 ms later) |
| Cleanup.KeptActionsPassFilters | background.js:540-550 | every kept hover, focus or blur shows a tooltip, is important or is on a form field; no kept scroll has `scrollDiff` below 100 |
| Cleanup.NoDropGrows | background.js:552 | each action adds itself or nothing |
| Cleanup.LastUrlIsLastKeptNavigation | background.js:533-538 | `lastUrl` is the address of the last kept navigation |
| Cleanup.KeptNavigationChangesAddress | background.js:533-536 | every kept navigation goes to an address other than the previous kept navigation's |
| Cleanup.RunOfCleaned | background.js:518-557 | running the pass over its own output reaches the same state |
| Cleanup.CleanIdempotent | background.js:518-557 | cleaning twice is cleaning once |
| KeyDescription.LookupMisses | background.js:575 | a key the table does not list gets no description from it |
| KeyDescription.LookupFinds | background.js:575 | in a table without repeated keys, every listed key finds its own description |
| KeyDescription.DescriptionsDistinct | background.js:561-573 | the eleven keys of the table are all different |
| KeyDescription.TableDescriptions | background.js:561-575 | each of the eleven listed keys is described by its fixed text |
| KeyDescription.GetKeyDescription | background.js:560-588 | the description is the modifier prefix, reading `Alt+`, `Shift+`, `Ctrl+` (Ctrl or Meta) in that order, followed by the table's text or `Press <key>` |
| KeyDescription.WithModifiersReadsAltShiftCtrl | background.js:577-585 | prefixing Ctrl (or Meta), then Shift, then Alt reads `Alt+Shift+Ctrl+…` |
| KeyDescription.TableKeysAreLowerCase | background.js:561-573 | every listed key is lower-case |
| KeyDescription.CapitalisedKeysFallBack | background.js:575 | a key holding a capital letter, as `event.key` spells `Enter` or `ArrowUp`, falls back to `Press <key>` |
| RenderCommon.StartUrl | background.js:391 | the first `goto` uses the first action's address when it is non-empty, else `https://example.com` |
| RenderCommon.CheckRenderingOf | background.js:416-429 | a checkbox gives `check` or `uncheck` by its `checked` flag; a radio gives `check`; any other input type writes nothing |
| RenderCommon.ReplaceFirst | background.js:720 | `replace` with a string pattern keeps the length and changes nothing when the character is absent |
| RenderCommon.ReplaceFirstAt | background.js:720 | only the first occurrence is replaced |
| RenderCommon.KeepIdentChars | background.js:852 | the result holds only letters, digits and `_`, and an identifier is kept whole |
| JavaScriptRenderer.GenerateJavaScriptCode | background.js:383-514 | the loop over the cleaned actions returns `Code`: header, one step per cleaned action, closing lines |
| JavaScriptRenderer.CodeOpensAndCloses | background.js:387-512 | the test starts with the `require` header and the `goto` of the first cleaned action's address, and ends with the assertion comments |
| JavaScriptRenderer.StepSilent | background.js:395-506 | a step writes nothing exactly when the check is neither checkbox nor radio, the navigation repeats the previous cleaned address, the hover is neither tooltip nor important, the focus or blur is off a form field, the key press has no key, the scroll's `scrollDiff` is not above 100, or the type is unknown |
| JavaScriptRenderer.RepeatedNavigationSilent | background.js:443-449 | a navigation to the previous cleaned action's address writes nothing |
| JavaScriptRenderer.SilentActionsAddNothing | background.js:395-507 | actions the generator leaves out add nothing to the test |
| TypeScriptRenderer.GenerateTypeScriptCode | background.js:609-715 | the loop over all actions, uncleaned, returns `Code` |
| TypeScriptRenderer.CodeOpensAndCloses | background.js:610-712 | the test starts with the `import` header and the first action's `goto`, and ends with the assertion comments |
| TypeScriptRenderer.StepSilent | background.js:618-706 | a step writes nothing only for a check that is neither checkbox nor radio, or an unknown type: every other action is written |
| TypeScriptRenderer.JavaScriptIsFilteredTypeScript | background.js:618-706 | apart from key presses, the JavaScript step (background.js lines 395-506) is the TypeScript step or, for an action the JavaScript generator filters, nothing |
| PythonRenderer.GeneratePythonCode | background.js:717-828 | the loop over all actions returns `Code` |
| PythonRenderer.CodeOpensAndCloses | background.js:718-825 | the test starts with the import, the function header and the first `goto`, and ends with the assertion comments and `browser.close()` |
| PythonRenderer.StepSilent | background.js:731-818 | as for TypeScript: only a non-checkbox, non-radio check or an unknown type writes nothing |
| PythonRenderer.ScrollStatementIgnoresPosition | background.js:802-805 | the scroll statement is the same for every scroll: the f-string braces are literal text of the generated Python |
| PythonRenderer.SecondHyphenSurvives | background.js:720 | a file name with two hyphens gives a function name that still holds a hyphen |
| JavaRenderer.GenerateJavaCode | background.js:849-963 | the loop over all actions returns `Code` |
| JavaRenderer.CodeOpensAndCloses | background.js:850-960 | the class starts with the imports, the class and `main` declarations and the first `navigate`, and ends with the closing braces |
| JavaRenderer.StepSilent | background.js:866-951 | as for TypeScript: only a non-checkbox, non-radio check or an unknown type writes nothing |
| JavaRenderer.ClassNameHasNoHyphen | background.js:852 | the class name holds no hyphen, whatever the file name |
| JavaRenderer.SingleHyphenBecomesUnderscore | background.js:852 | a name whose only non-identifier character is one hyphen keeps every character, the hyphen becoming `_` |
| CodeGeneration.UnknownLanguageIsJavaScript | background.js:360-380 | any language other than the four, the empty one included, gets the JavaScript test |
| Session.RecordingSession.constructor | background.js:2-6 | the script starts stopped, with no actions and JavaScript as the language |
| Session.RecordingSession.RecordingStatus | background.js:76-83 | the reported count is the number of recorded actions |
| Session.RecordingSession.StartRecording | background.js:127-137 | recording starts with no actions, count 0, and the given name and language |
| Session.RecordingSession.RecordAction | background.js:56-73 | the action is appended only while recording, and the count stays equal to the number of actions |
| Session.RecordingSession.PageUnloading | background.js:86-98 | a navigation to the address is appended only while recording and when the address is non-empty |
| Session.RecordingSession.GenerateTestFile | background.js:274-280 | the file is `<name>.spec.js` holding the test for the session's actions and language |
| Session.RecordingSession.StopRecording | background.js:233-272 | recording stops, the actions stay, and a file is produced exactly when there is at least one action |
| Session.RecordingSession.GenerateScript | background.js:282-288 | the file is named after the given name, and the test is for the given actions and language |
| Session.RecordingSession.ForceDownload | background.js:109-117 | a file exactly when there are actions: `<name>.spec.js` holding the test for the session's actions and language |
| Session.UnloadNavigation | background.js:88-93 | the unload navigation has the address and time and no selector or frame path |
| Session.StartForgetsEarlierRecording | background.js:127-137 | after a restart, the session holds only what was recorded since |
| Session.StoppedSessionIgnoresActions | background.js:56-98 | once stopped, neither `recordAction` nor `pageUnloading` changes the actions or the count |
| StepEditor.EffectiveFileName | popup.js:125 | the file name is the trimmed input when it is non-blank, else `recorded-test`; never empty |
| StepEditor.GeneratePreviewCode | popup.js:123-141 | the loop returns the header with the `<fileName>.spec.js` line, then one `// Step i+1: <type>` block per action in order, with a `Value` line only when the value is truthy |
| StepEditor.Editor.ShowScriptPreview | popup.js:108-113 | the shown list is the actions, or empty when absent; the working copy equals it; the preview is of the working copy |
| StepEditor.Editor.DeleteStep | popup.js:235-238 | the working copy becomes `splice(index, 1)` of itself |
| StepEditor.SpliceOne | popup.js:236 | an index that reaches an entry removes one entry; one past the end changes nothing |
| StepEditor.DeleteRemovesOnlyThatEntry | popup.js:236 | an in-range delete keeps the entries before the index and moves those after it up by one |
| StepEditor.DeleteMinusOneRemovesLast | popup.js:236 | index `-1` removes the last entry |
| StepEditor.Editor.MoveStep | popup.js:240-248 | the entries at `index` and `index + direction` are swapped when the target is in range; otherwise nothing changes |
| StepEditor.Swapped | popup.js:243-245 | the length is kept and the two positions exchange their entries |
| StepEditor.SwapIsPermutation | popup.js:243-245 | a move keeps the multiset of actions, and every other position is unchanged |
| StepEditor.SwapUndoes | popup.js:240-248 | moving back restores the list |
| StepEditor.Editor.Cancel | popup.js:269-273 | the working copy becomes the shown list |
| StepEditor.Editor.Save | popup.js:275-279 | the shown list becomes the working copy |
| Text.TrimSpec | content.js:20 | a trimmed string is empty exactly when the input is all white space, and otherwise has no white space at either end |
| Text.NonBlankIsTrimTruthy | content.js:20 | `value && value.trim()` is truthy exactly when the value holds a non-space character |
| Text.AfterLast | content.js:565 | the last piece of a split is a tail with no separator, which is the whole string or follows a separator |

## Left out

- All `chrome.*` messaging is left out: runtime messages, tab injection and `sendResponse`. The message cases are modelled as method calls.
- Storage persistence is left out: `updateStorage`, `loadRecordingState` and the storage listeners. So are the heartbeat and persistence intervals, the tab id and `recordingStartTime`.
- `downloadFile` and its retry and alternative-download paths are left out, as browser download APIs. A file to save is returned as a `Download` value.
- Timers and observers are left out: the 2-second typing debounce, `MutationObserver` navigation detection and `DOMNodeInserted`. The typing rule is modelled as the callback run when the timer fires (`OnTypingSettled`).
- `getFrameContext` and `getFrameIndex` walk live frames and documents. The frame path is a parameter of the recorder.
- Which element interfaces define `name`, `placeholder` and `title` is not derived from the tag name. Each element record says whether the property is defined.
- The path walks assume an element below `document.body`. A detached element, or one outside `body`, makes `current.parentNode.children` throw or walks past the document; that case is not modelled.
- Layout and style queries become boolean facts of the element: `getComputedStyle`, `getBoundingClientRect`, `offsetParent` and the window size. `window.scrollY` is a parameter.
- Scroll positions (`window.scrollX`, `window.scrollY`) are modelled as whole pixels. In a browser they are doubles and can be fractional under zoom; the model does not capture a fractional difference in the 100 px filter or fractional numbers in the generated `scrollTo(x, y)` text.
- The event listeners that build action records are left out. Their outputs are the action records the filter receives. The listeners' checks (overlay, tag) are not modelled.
- Classifier.DetermineActionType: the update of `window.lastScrollY` in the scroll branch is not modelled. Its last value is an input.
- Classifier.ClickPrecedence: the `onclick`, pointer-cursor and `clickable` branches are not distinguished. Every branch after `select` yields `click`.
- Recorder.CleanActionData is modelled as a function that returns the cleaned record. The in-place deletes are not modelled, because no other holder of the record is modelled.
- Recorder.CleanActionData: the deletes of `event` and `originalEvent` are not modelled. The action record has no such fields.
- Action records carry only the fields the filters and generators read. Fields such as `tagName`, `text`, `x`, `y`, `reason` and `previousUrl` are left out.
- StepEditor.Editor.MoveStep requires `index` to name an entry, because the buttons only pass such indexes. An out-of-range `index` is not modelled.
- StepEditor.Editor.Cancel and StepEditor.Editor.Save do not return the refreshed preview. The modal redraw (`updateEditModal`, `createStepItem`) is UI.
- The rest of the popup is left out: `updateUI`, the AI configuration and its network validation, and the recording indicator.
- `generatePlaywrightCode` is modelled as a function (`CodeGeneration.PlaywrightCode`), because it is a pure dispatch. Its contract is the lemma `CodeGeneration.UnknownLanguageIsJavaScript`.
- Strings are sequences of Unicode scalar values, not UTF-16 code units.
- `toLowerCase` is modelled on ASCII letters only.
- `JSON.stringify` escapes `"` and `\` only, not control characters.
- KeyDescription.BaseDescription: keys that name inherited object properties (such as `constructor`) are not modelled. The lookup is on the table's own entries.
- A selector object is written as `[object Object]`. Its strategy fields are not rendered, because the generators interpolate it directly.
- The demo sample outputs and the debugging and reload scripts are not part of this model.
