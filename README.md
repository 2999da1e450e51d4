# Legacy task-module adapter (Microsoft Teams JavaScript client library)

This project models the deprecated `tasks` namespace of the Teams JavaScript client
library. That namespace is a stateless adapter in front of the current `dialog`
namespace:

- `startTask` rebuilds the caller's task info into a fresh dialog info object and opens a
  dialog with it, passing the caller's submit handler along.
- `updateTask` forwards its argument to `dialog.resize` unchanged.
- `submitTask` forwards its arguments to `dialog.submit` unchanged.

The rebuild copies five properties verbatim (`url`, `card`, `title`, `fallbackUrl`,
`completionBotId`). It resolves `height` and `width` one at a time:

- a number passes through;
- a falsy value (`undefined`, `null`, `false`, `0`, `""`) passes through as it is;
- any other value is normalised to a `TaskModuleDimension` member. The Large and Medium
  values stay as they are and everything else becomes Small.

All other properties are dropped.

Files:

- `js_values.dfy` (module `JsValues`): JavaScript runtime values, truthiness,
  `typeof … === 'number'` and property reads, where a missing property reads as `undefined`.
  Objects are maps from property names to values.
- `tasks.dfy` (module `Tasks`): the enum, the dimension mapper, the size resolution, the
  rebuild of the info object, the three delegating entry points, and lemmas about them.

The dialog namespace is outside this model. Each entry point returns a `DialogCall`
value: the call it makes to `dialog.open`, `dialog.resize` or `dialog.submit`, with the
arguments in the order they are passed. The string values of `TaskModuleDimension` are
declared in `constants.ts`, which is not part of this model. They are a parameter
(`DimensionNames`); where a property needs the three values to differ, the lemma requires
`Distinct()`.

## Model

| member | source | states |
|---|---|---|
| `Tasks.DialogDimension` | packages/teams-js/src/public/tasks.ts:71-79 | the mapper is total: Large iff the input is the Large value, Medium iff it is the Medium value and not the Large one, Small for every other input |
| `Tasks.DimensionRoundTrip` | packages/teams-js/src/public/tasks.ts:71-79 | with distinct enum values, each member's value maps back to that member |
| `Tasks.DialogDimensionIdempotent` | packages/teams-js/src/public/tasks.ts:72-78 | mapping the value of the mapper's result gives the same member again |
| `Tasks.DialogDimensionOnto` | packages/teams-js/src/public/tasks.ts:71-79 | every one of Large, Medium and Small is the result for some input |
| `Tasks.ResolveSize` | packages/teams-js/src/public/tasks.ts:51-58 | a number is kept, a falsy value is kept as it is (not coerced to Small), a truthy non-number becomes the enum value the mapper picks; the result is always a size the dialog accepts |
| `Tasks.ResolveSizeKeepsDialogSizes` | packages/teams-js/src/public/tasks.ts:51-58 | a size that is already falsy, numeric or an enum value is left unchanged |
| `Tasks.GetDialogInfoFromTaskInfo` | packages/teams-js/src/public/tasks.ts:50-69 | the result has exactly the seven dialog properties; the five copied ones equal the input's (`undefined` when missing); height and width are the resolved input sizes |
| `Tasks.SizesIndependent` | packages/teams-js/src/public/tasks.ts:51-58 | the output height depends only on the input height, and the output width only on the input width |
| `Tasks.OtherFieldsDropped` | packages/teams-js/src/public/tasks.ts:59-67 | adding or changing a property outside the seven does not change the result |
| `Tasks.DialogInfoUnchanged` | packages/teams-js/src/public/tasks.ts:50-69 | an object already of the dialog info shape is rebuilt equal to itself |
| `Tasks.GetDialogInfoIdempotent` | packages/teams-js/src/public/tasks.ts:50-69 | rebuilding a rebuilt object changes nothing |
| `Tasks.DialogInfoIsImage` | packages/teams-js/src/public/tasks.ts:59-67 | an object is the rebuild of some task info if and only if it has exactly the seven properties and accepted sizes |
| `Tasks.StartTask` | packages/teams-js/src/public/tasks.ts:22-24 | opens a dialog with the rebuilt info, which has the dialog shape, and with the caller's submit handler unchanged |
| `Tasks.StartTaskLargeHeight` | packages/teams-js/src/public/tasks.ts:22-24 | a start with a url and a Large height opens a dialog with that url, the Large height and the other five properties present but `undefined` |
| `Tasks.UpdateTask` | packages/teams-js/src/public/tasks.ts:33-35 | resizes with the caller's object untranslated, extra properties included |
| `Tasks.SubmitTask` | packages/teams-js/src/public/tasks.ts:46-48 | submits the result and the app ids unchanged and in that order |

## Left out

- `dialog.open`, `dialog.resize` and `dialog.submit` are in `dialog.ts`, which is not part of this model. The model states the call the adapter makes, not what the callee does with it (its wire message, its context check, its checks on the resize argument).
- `Tasks.StartTask`: returns the call made to `dialog.open`. The `IAppWindow` that `dialog.open` returns is passed back to the caller untouched, and it is not modelled.
- The concrete string values of `TaskModuleDimension` are in `constants.ts`, which is not part of this model. They are a parameter.
- The TypeScript parameter types are not enforced at run time. The model therefore accepts any runtime value for a size, and the mapper classifies it with strict equality.
- JavaScript numbers are integers here. `NaN`, which is falsy, and fractional sizes are not modelled.
- A function value, such as the submit handler, is known only by its identity (`Func`). The adapter never calls it, so its behaviour is not modelled.
- The context and version gate, message correlation, the initialisation lifecycle and secondary windows belong to other parts of the library and are not modelled.
