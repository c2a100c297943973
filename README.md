# Training controls, modelled in Dafny

A model of three small UI controls from the `Training-April-2020` folder, with
the DOM reduced to nodes that have a kind, an ordered child list and one text
slot, and the host's context reduced to plain values.

- `dataset_control.dfy` — the dataset control (`MyDatasetControl`). `updateView`
  does nothing while the dataset is loading. Otherwise it removes the
  container's element children, last first. It then appends one `div > label`
  per id of `sortedRecordIds`, in that order. Each label shows the projected
  row's value under the column named by `typeAttribute`. `_items` is a
  specification function (`ItemsOf`) and two read-only methods (`Items`, `NewRecord`) that have
  the source's two loops.
- `character_counter.dfy` — the character counter (`TrainingCharacterCounter`).
  It has a textarea bound to `InputText` and a label that the change handler
  rewrites as `"<c> character(s), <w> word(s)"`. Here `c` is the text's length
  and `w` is the number of pieces of a split at single spaces. The singular form
  is used for counts of at most one and keeps its trailing space. A ghost
  counter records the calls to `notifyOutputChanged`.
- `callout.dfy` — the React callout component (`CalloutBasicCustomControl`).
  Its state holds a visibility and a display text. React's `setState` merge is
  `Merge`. The three handlers are the events of a small state machine, and
  `render` is the pure function `Render`.
- `dom.dfy` — the DOM operations the controls use: `createElement`,
  `appendChild`, `removeChild` and `lastElementChild`.
- `host.dfy` — `Option` (JavaScript `null`/`undefined`) and the `raw || ""` idiom.

`updateView`'s removal loop walks `lastElementChild`, so only element
children are removed. Text (and comment) nodes already in the container
survive, in their order, ahead of the new divs. When the container holds only
elements, it ends with exactly one child per row, all of them elements. That
is the case for the empty div the host hands to `init`, and it carries over
from one update to the next.

In the counter, the `<= 1` test puts a count of 0 in the singular
(`"0 character "`).

## Model

| member | source | states |
|---|---|---|
| `Host.OrEmpty` | Training-April-2020/DatasetTypeControl/MyDatasetControl/index.ts:60 | `raw` or `""`: a present string is kept, a null raw value gives `""` |
| `Dom.Node.LastElementChild` | Training-April-2020/DatasetTypeControl/MyDatasetControl/index.ts:53 | the result is an element child, and it is null exactly when no child is an element |
| `Dom.LastElementOf` | Training-April-2020/DatasetTypeControl/MyDatasetControl/index.ts:53-56 | scanning from the end finds an element exactly when the list holds one; what it finds is an element of the list |
| `Dom.Node.RemoveChild` | Training-April-2020/DatasetTypeControl/MyDatasetControl/index.ts:55 | the child leaves the list, and the list gets shorter (this is what makes the loop terminate) |
| `Dom.WithoutKeepsNonElements` | Training-April-2020/DatasetTypeControl/MyDatasetControl/index.ts:55 | removing an element child keeps the non-element children and their order |
| `Dom.AllElementsNoNonElements` | Training-April-2020/DatasetTypeControl/MyDatasetControl/index.ts:53-57 | a child list made only of elements has no children that the removal loop would leave behind |
| `Dom.Node.AppendChild` | Training-April-2020/DatasetTypeControl/MyDatasetControl/index.ts:72 | the node is added at the end of the child list |
| `Dom.Node.CreateElement` | Training-April-2020/DatasetTypeControl/MyDatasetControl/index.ts:66-68 | `createElement` gives an element of the requested tag, with no children and empty text |
| `DatasetControl.MyDatasetControl.Init` | Training-April-2020/DatasetTypeControl/MyDatasetControl/index.ts:36-42 | `init` stores the container and leaves it untouched; no label has been created yet |
| `DatasetControl.MyDatasetControl.GetOutputs` | Training-April-2020/DatasetTypeControl/MyDatasetControl/index.ts:82-85 | `getOutputs` returns the empty object |
| `DatasetControl.MyDatasetControl.ClearElements` | Training-April-2020/DatasetTypeControl/MyDatasetControl/index.ts:53-57 | the removal loop terminates, and the children left are exactly the old non-element children, in order; a container of elements only ends empty |
| `DatasetControl.MyDatasetControl.AppendLabels` | Training-April-2020/DatasetTypeControl/MyDatasetControl/index.ts:65-73 | one fresh `div` holding one fresh childless `label` is appended per row, in row order; the i-th label shows `rec[typeAttribute]` of the i-th row; `mainContainer`/`myLabel` end on the last ones |
| `DatasetControl.MyDatasetControl.UpdateView` | Training-April-2020/DatasetTypeControl/MyDatasetControl/index.ts:49-76 | while loading, nothing changes; otherwise the container holds the old non-element children, then one label div per id of `sortedRecordIds` showing that row's selected value; no old element child survives; a container of elements only ends with exactly one child per id, all elements |
| `DatasetControl.Items` | Training-April-2020/DatasetTypeControl/MyDatasetControl/index.ts:99-116 | the map over `sortedRecordIds` and the inner column loop build exactly `ItemsOf`: one projected row per id, in order |
| `DatasetControl.ItemsOf` | Training-April-2020/DatasetTypeControl/MyDatasetControl/index.ts:102 | `_items` returns as many rows as `sortedRecordIds` has ids |
| `DatasetControl.SetColumnsLookup` | Training-April-2020/DatasetTypeControl/MyDatasetControl/index.ts:108-110 | after the column loop, a column name reads that column's formatted value, and any other name reads what it read before |
| `DatasetControl.ProjectLookup` | Training-April-2020/DatasetTypeControl/MyDatasetControl/index.ts:104-110 | a projected row maps a column name to its formatted value, `"key"` to the record id unless a column is named `"key"`, and any other name to `undefined` |
| `DatasetControl.Project` | Training-April-2020/DatasetTypeControl/MyDatasetControl/index.ts:104-110 | a projected row's fields are exactly `key` and the column names |
| `DatasetControl.SetColumns` | Training-April-2020/DatasetTypeControl/MyDatasetControl/index.ts:108-110 | the column loop adds exactly the column names to the fields the object already had |
| `DatasetControl.NewRecord` | Training-April-2020/DatasetTypeControl/MyDatasetControl/index.ts:102-113 | the `map` callback, with its column loop, builds exactly the projected row `Project` of its record |
| `DatasetControl.LabelTexts` | Training-April-2020/DatasetTypeControl/MyDatasetControl/index.ts:65-69 | there is one label text per id of `sortedRecordIds` |
| `DatasetControl.LabelTextAt` | Training-April-2020/DatasetTypeControl/MyDatasetControl/index.ts:60-72 | the i-th label shows the i-th row's formatted value for the selected column, the record id for `"key"`, and `undefined` (no error) for a name that is not a column |
| `CharacterCounter.Split` | Training-April-2020/FieldTypeControl/TrainingCharacterCounter/index.ts:93 | `split(' ')` yields one more piece than there are spaces, and no piece contains a space |
| `CharacterCounter.JoinSplit` | Training-April-2020/FieldTypeControl/TrainingCharacterCounter/index.ts:93 | joining the pieces with a space gives the text back, so nothing is lost or collapsed |
| `CharacterCounter.WordCount` | Training-April-2020/FieldTypeControl/TrainingCharacterCounter/index.ts:93 | the word count is the number of spaces plus one, so it is at least 1 |
| `CharacterCounter.NatToString` | Training-April-2020/FieldTypeControl/TrainingCharacterCounter/index.ts:92-93 | `toString()` of a count is a non-empty decimal numeral without leading zeros, so the `"0"` fallbacks never apply |
| `CharacterCounter.ParseNatToString` | Training-April-2020/FieldTypeControl/TrainingCharacterCounter/index.ts:95-96 | `parseInt` of a count's numeral gives the count back, so the `<= 1` test is a test on the count |
| `CharacterCounter.ParseDecimal` | Training-April-2020/FieldTypeControl/TrainingCharacterCounter/index.ts:95-96 | `parseInt` of a numeral is 0 exactly when every digit is 0 |
| `CharacterCounter.LabelText` | Training-April-2020/FieldTypeControl/TrainingCharacterCounter/index.ts:95-96 | the label starts with the character count and `" character , "` for at most one character, `" characters, "` otherwise, and ends with `" word "` for at most one word, `" words"` otherwise |
| `CharacterCounter.LabelOfEmpty` | Training-April-2020/FieldTypeControl/TrainingCharacterCounter/index.ts:95-96 | the empty text is labelled `"0 character , 1 word "` |
| `CharacterCounter.LabelOfDoubleSpace` | Training-April-2020/FieldTypeControl/TrainingCharacterCounter/index.ts:93-96 | `"a  b"` counts 3 words and is labelled `"4 characters, 3 words"` |
| `CharacterCounter.TrainingCharacterCounter.Init` | Training-April-2020/FieldTypeControl/TrainingCharacterCounter/index.ts:33-50 | exactly one fresh wrapper div is appended to the container, holding the textarea and then the label; the textarea holds `raw` or `""`, the label is empty |
| `CharacterCounter.TrainingCharacterCounter.UpdateView` | Training-April-2020/FieldTypeControl/TrainingCharacterCounter/index.ts:57-60 | the textarea is overwritten with `raw` or `""` unconditionally and the label is unchanged, so the outputs then carry that value |
| `CharacterCounter.TrainingCharacterCounter.GetOutputs` | Training-April-2020/FieldTypeControl/TrainingCharacterCounter/index.ts:66-71 | the outputs have the single field `InputText`, equal to the textarea's value |
| `CharacterCounter.TrainingCharacterCounter.OnChange` | Training-April-2020/FieldTypeControl/TrainingCharacterCounter/index.ts:85-88 | a change event rewrites the label for the current text and notifies the host exactly once |
| `CharacterCounter.TrainingCharacterCounter.CalculateNumberOfCharacters` | Training-April-2020/FieldTypeControl/TrainingCharacterCounter/index.ts:90-99 | the label becomes the length, the singular or plural noun, `", "`, the word count and its noun; the textarea is unchanged; the host is notified once |
| `Callout.Merge` | Training-April-2020/React-FluentUI-Control/CalloutDemo/CustomCallout.tsx:75-77 | `setState` writes the fields the update carries and keeps every other field |
| `Callout.Initial` | Training-April-2020/React-FluentUI-Control/CalloutDemo/CustomCallout.tsx:69-72 | the initial state is hidden and holds the props' text |
| `Callout.UpdateFor` | Training-April-2020/React-FluentUI-Control/CalloutDemo/CustomCallout.tsx:75-134 | new props carry a text and no visibility; the click and dismiss handlers carry a visibility and no text |
| `Callout.Step` | Training-April-2020/React-FluentUI-Control/CalloutDemo/CustomCallout.tsx:75-134 | new props replace the text and keep the visibility; a click or a dismissal keeps the text |
| `Callout.Render` | Training-April-2020/React-FluentUI-Control/CalloutDemo/CustomCallout.tsx:85-123 | the button reads "Hide Callout" exactly when visible; the callout is present exactly when visible and shows the current text |
| `Callout.InitialIsHidden` | Training-April-2020/React-FluentUI-Control/CalloutDemo/CustomCallout.tsx:69-72 | the initial state is hidden, shows the props' text, and renders the "Show Callout" button with no callout |
| `Callout.ToggleFlips` | Training-April-2020/React-FluentUI-Control/CalloutDemo/CustomCallout.tsx:125-128 | a click flips the visibility and keeps the text; two clicks restore the state |
| `Callout.DismissHides` | Training-April-2020/React-FluentUI-Control/CalloutDemo/CustomCallout.tsx:131-134 | dismissal hides from either state, keeps the text, and is idempotent |
| `Callout.PropsReplaceText` | Training-April-2020/React-FluentUI-Control/CalloutDemo/CustomCallout.tsx:75-77 | new props replace the text and leave the visibility as it was |
| `Callout.RenderFollowsState` | Training-April-2020/React-FluentUI-Control/CalloutDemo/CustomCallout.tsx:88-120 | the button reads "Hide Callout" exactly when visible and "Show Callout" otherwise; the callout is present exactly when visible and shows the current text |
| `Callout.RunText` | Training-April-2020/React-FluentUI-Control/CalloutDemo/CustomCallout.tsx:75-134 | after any sequence of events the text is that of the last props received, or the starting text when none arrived |
| `Callout.RunVisibility` | Training-April-2020/React-FluentUI-Control/CalloutDemo/CustomCallout.tsx:125-134 | after any sequence of events the callout is visible exactly when an odd number of clicks followed the last dismissal, or, with no dismissal, when the starting visibility was flipped to true |
| `Callout.CalloutBasicCustomControl.constructor` | Training-April-2020/React-FluentUI-Control/CalloutDemo/CustomCallout.tsx:66-73 | the component starts in `Initial(props)`: hidden, showing the props' text |
| `Callout.CalloutBasicCustomControl.ComponentWillReceiveProps` | Training-April-2020/React-FluentUI-Control/CalloutDemo/CustomCallout.tsx:75-77 | the text becomes the new props' text; the visibility is unchanged |
| `Callout.CalloutBasicCustomControl.OnShowMenuClicked` | Training-April-2020/React-FluentUI-Control/CalloutDemo/CustomCallout.tsx:125-129 | the visibility flips; the text is unchanged |
| `Callout.CalloutBasicCustomControl.OnCalloutDismiss` | Training-April-2020/React-FluentUI-Control/CalloutDemo/CustomCallout.tsx:131-135 | the callout is hidden; the text is unchanged |

## Left out

- `destroy` of both controls: it has an empty body.
- The dataset control's `init` also stores the notify callback and the context. Neither is read again, so the model stores only the container.
- The host context and the dataset API are plain values here: a loading flag, the column list, `sortedRecordIds` and a record map. `HostProvides` is the host's guarantee that every listed id has a record and that every record has a formatted value for every column. Without it, `records[key].getRecordId()` would throw, and the model does not cover that case.
- A node's own text (`innerText`, `innerHTML`, a textarea's `value`) is kept in the node's text slot, not as a child Text node as the browser would keep it. This is why a rendered label is childless in the model.
- `innerText = undefined` is kept as `None`. How the browser then displays the label is not modelled.
- Properties that every JavaScript object inherits (`rec["toString"]`, a column named `__proto__`) are not modelled. A projected row is a plain map.
- `appendChild` of a node that already has a parent moves the node. That case is not modelled, because every node the controls append is freshly created.
- `innerHTML` is a plain string here, with no HTML parsing. The counter's label text contains only digits, letters, spaces and a comma, so reading it back with `+=` gives the same string.
- String length is counted in Dafny characters (Unicode scalar values), not in UTF-16 code units as JavaScript counts it. The two differ only for characters outside the Basic Multilingual Plane.
- ParseDecimal: models `parseInt` only on decimal numerals. Those are the only strings the counter passes to it.
- `addEventListener` and the event loop are not modelled. `OnChange` is the listener, called as one atomic step, and the notify callback is a ghost counter.
- `componentWillReceiveProps` also copies the optional `thisIdJustADemo` prop into the state when it is present. No code reads that field, so the model omits it.
- React's asynchronous batching of `setState` is not modelled. Each handler is one atomic state transition.
- Fluent UI styles and theme, `getId`, refs, callout positioning and focus, and the callout's static title and link are not modelled.
- The webpack bundle of the dataset control is generated output and is not part of this model.
