# ppt_creator session model

This project models the `ppt_creator` tool of OpenManus (`app/tool/ppt_creator.py`). The tool is an agent tool that builds one PowerPoint presentation across a series of `execute` calls. Each call names an `action`: `create`, `add_slide`, `add_text`, `add_image` or `save`. The tool object keeps two pieces of session state. One is the current presentation. The other is the path it will be saved to. Every call first resolves a given `file_path` against the workspace root and stores it. Only then does it dispatch on the action.

The presentation library's object model is abstracted:

- A presentation is a `seq<Slide>`.
- A slide records its layout number and its shapes in document order.
- A shape has an optional placeholder idx, a flag saying whether it has a text frame, its text, and the image it shows when it is a picture.
- The shapes a new slide starts with come from a function of the layout number (`Session.layouts`). This stands for the library's default template.
- The filesystem is an `Env` value. It holds the set of existing files and three booleans: whether the save directory can be created, whether a picture can be inserted, and whether the file can be written.

Files:

- `optional.dfy`: `Option`, for Python's `Optional[...]` arguments.
- `paths.dfy`: POSIX `isabs`, `basename` and `join`, the document and image path rules, and the ".pptx" rule.
- `slides.dfy`: shapes, slides, the slide-layout table and the first-match shape lookup.
- `ppt_creator.dfy`: the session `State`, the pure step functions (`CreateSpec` … `SaveSpec`, `Dispatch`, `Step`) and the `Session` class. Each method of `Session` updates the fields in place and is proved to agree with its step function. `Inv` is the session invariant: every stored or saved path starts with the root string, and saved files end in ".pptx". This is a textual prefix only: `..` segments are not normalised, so such a path can still name a file outside the root (`DotDotLeavesRoot`).
- `properties.dfy`: lemmas about the step functions.

Python's truthiness test `if x:` on an optional string is `Given(x)`: the value is present and not empty.

Three behaviours of the code are easy to miss:

- Image paths are not re-rooted. An absolute image path is used unchanged. Only document paths keep just their basename (`AbsoluteImagePathKept`, `AbsoluteDocPathRerooted`).
- A `file_path` given to `create` always becomes the save path. `execute` stores the resolved path before dispatch (line 101), and the `or` on line 124 then keeps it. So "a path set earlier is kept" holds only when `create` gets no `file_path` (`CreateStep`).
- The path is stored for every action, unknown ones included (`UnknownActionOnlyStoresPath`).

## Model

The pure step functions `CreateSpec`, `AddSlideSpec`, `AddTextSpec`, `AddImageSpec`, `SaveSpec`, `Dispatch` and `Step` have no contract of their own. Each is the specification of the `Session` method in the same row, and of the lemmas that cite the same lines.

| member | source | states |
|---|---|---|
| `Paths.Basename` | app/tool/ppt_creator.py:92 | the basename is the longest slash-free suffix of the path |
| `Paths.Join` | app/tool/ppt_creator.py:93-95 | an absolute second part replaces the first; otherwise the result starts with the first part and ends with the second; a slash is inserted between them exactly when the first part is non-empty and does not already end with one |
| `Paths.ResolveDocPath` | app/tool/ppt_creator.py:90-95 | the stored document path starts with the root string and is absolute when the root is; a relative path is kept as its tail; an absolute one contributes only its basename, with no directory below the root |
| `Paths.ResolveImagePath` | app/tool/ppt_creator.py:190-194 | an absolute image path is used unchanged; a relative one starts with the root string and ends with the given path (`..` segments are kept, so it may name a file outside the root) |
| `Paths.WithPptx` | app/tool/ppt_creator.py:221-223 | the save path ends with ".pptx", extends the stored path by at most the extension, and is unchanged when it already ends so |
| `Paths.BasenameAfterSlash` | app/tool/ppt_creator.py:92 | the basename of `d + "/" + n` is `n` for a slash-free `n`, whatever `d` is |
| `Paths.AbsoluteDocPathIsItsBasename` | app/tool/ppt_creator.py:91-93 | an absolute document path resolves exactly as its bare basename would |
| `Paths.WithPptxIdempotent` | app/tool/ppt_creator.py:222-223 | applying the extension rule twice equals applying it once; a path without the extension gets exactly ".pptx" appended |
| `Slides.LayoutIndex` | app/tool/ppt_creator.py:66-72 | the table is defined exactly on title, content, two_content, section and blank, with layouts among 0, 1, 2, 3 and 5 |
| `Slides.LayoutIndexInjective` | app/tool/ppt_creator.py:66-72 | distinct slide types use distinct layouts |
| `Slides.FirstMatch` | app/tool/ppt_creator.py:165 | the lookup returns the first shape in shape order that matches (placeholder idx or text frame), or none when no shape matches |
| `Slides.WithText` | app/tool/ppt_creator.py:166 | setting a shape's text changes that shape's text and no other shape of the slide |
| `PptCreator.StepKeepsInv` | app/tool/ppt_creator.py:88-115 | every `execute` step keeps the stored path and all saved file paths starting with the workspace root string, and saved files end in ".pptx" |
| `PptCreator.Session.constructor` | app/tool/ppt_creator.py:61-63 | a new session has no presentation, no path and no saved files |
| `PptCreator.Session.Execute` | app/tool/ppt_creator.py:74-118 | the in-place `execute` produces exactly the state and result of `Step` (makedirs failure, path storing, then `Dispatch` on the action), and keeps the session invariant |
| `PptCreator.Session.Create` | app/tool/ppt_creator.py:120-126 | the in-place `create` agrees with `CreateSpec`, the pure step function for the same lines |
| `PptCreator.Session.AddSlide` | app/tool/ppt_creator.py:128-145 | the in-place `add_slide` agrees with `AddSlideSpec`, the pure step function for the same lines |
| `PptCreator.Session.AddText` | app/tool/ppt_creator.py:147-177 | the in-place `add_text`, which scans the shapes with a loop, agrees with `AddTextSpec`, the pure step function for the same lines |
| `PptCreator.Session.AddImage` | app/tool/ppt_creator.py:179-211 | the in-place `add_image` agrees with `AddImageSpec`, the pure step function for the same lines |
| `PptCreator.Session.Save` | app/tool/ppt_creator.py:213-230 | the in-place `save` agrees with `SaveSpec`, the pure step function for the same lines |
| `PptCreatorProperties.PathStoredBeforeDispatch` | app/tool/ppt_creator.py:90-115 | a given `file_path` becomes the resolved path for every action; `create` keeps it; only `save` of an open presentation changes it, by fixing the extension |
| `PptCreatorProperties.UnknownActionOnlyStoresPath` | app/tool/ppt_creator.py:104-115 | an unknown action returns an error naming it, and only the pre-dispatch path update happens |
| `PptCreatorProperties.CreateStep` | app/tool/ppt_creator.py:120-126 | `create` always yields an empty presentation and keeps saved files; `create` itself never changes the path stored before dispatch (a given `file_path` has already replaced any earlier path by then) |
| `PptCreatorProperties.NoPresentationGuard` | app/tool/ppt_creator.py:128-131 | with no presentation, `add_slide`, `add_text`, `add_image` and `save` each return "no active presentation", and only the pre-dispatch path update happens |
| `PptCreatorProperties.AddSlideRejectsType` | app/tool/ppt_creator.py:133-134 | a missing, empty or unknown slide type is an error naming it, and nothing changes |
| `PptCreatorProperties.AddSlideAppends` | app/tool/ppt_creator.py:136-145 | on success exactly one slide is appended, earlier slides are unchanged, the slide uses the layout from the table, the reported index is count - 1, and only the title placeholder gets the title, only when a title is given and that placeholder has a text frame |
| `PptCreatorProperties.AddSlideSucceeds` | app/tool/ppt_creator.py:133-145 | with an open presentation and a known slide type, `add_slide` always succeeds and reports the new index |
| `PptCreatorProperties.AddSlideTitleWithoutTextFrameIgnored` | app/tool/ppt_creator.py:139-145 | when the title placeholder has no text frame, the assignment of line 143 does not raise: success is reported and the slide is appended untitled |
| `PptCreatorProperties.AddTextGuards` | app/tool/ppt_creator.py:150-158 | `add_text` checks presentation, then slide index, then content, in that order; any failure leaves the state unchanged |
| `PptCreatorProperties.AddTextWritesOneShape` | app/tool/ppt_creator.py:160-177 | past the guards, success targets exactly the first matching placeholder (or first text-capable shape), writes the content into it when it has a text frame, and changes nothing else; with no such shape the matching "not found" error is returned |
| `PptCreatorProperties.AddTextSucceeds` | app/tool/ppt_creator.py:160-175 | past the guards, whenever the target shape exists `add_text` succeeds with the message naming the placeholder and slide; the target then holds the content if it has a text frame, and a requested placeholder without one leaves the session unchanged |
| `PptCreatorProperties.AddImageGuards` | app/tool/ppt_creator.py:180-197 | `add_image` checks presentation, slide index, image path, then file existence (reported by resolved path), in that order; any failure leaves the state unchanged |
| `PptCreatorProperties.AddImageAppendsPicture` | app/tool/ppt_creator.py:190-209 | on success the resolved file exists, the insertion did not fail, an absolute image path was used unchanged, and exactly one picture is appended to that slide only |
| `PptCreatorProperties.AddImageSucceeds` | app/tool/ppt_creator.py:181-209 | once the guards pass, the resolved file exists and the picture can be inserted, `add_image` succeeds and names the slide |
| `PptCreatorProperties.InsertFailure` | app/tool/ppt_creator.py:199-211 | past the guards, with the resolved file present, a failing `add_picture` gives the insertion error and leaves the session unchanged |
| `PptCreatorProperties.MakeDirsFailure` | app/tool/ppt_creator.py:96-118 | when the save directory for a given `file_path` cannot be created, `execute` returns the catch-all error with the session unchanged: the path is not stored and the action is not dispatched |
| `PptCreatorProperties.SaveWrites` | app/tool/ppt_creator.py:213-228 | `save` fails without a presentation or a path; on success the new path is the stored path with the extension rule applied, is reported, and holds the presentation |
| `PptCreatorProperties.SaveSucceeds` | app/tool/ppt_creator.py:215-228 | with an open presentation, a stored path and a writable file, `save` succeeds and reports the stored path with the extension rule applied |
| `PptCreatorProperties.SaveFailKeepsExtendedPath` | app/tool/ppt_creator.py:222-230 | a failed write returns the save error, yet the stored path keeps the appended extension and nothing is saved |
| `PptCreatorProperties.SaveTwice` | app/tool/ppt_creator.py:221-228 | saving twice gives the same path as saving once (the extension never stacks), and a second successful save changes nothing |
| `PptCreatorProperties.AbsoluteDocPathRerooted` | app/tool/ppt_creator.py:91-93 | an absolute path "/" + d + "/" + n with a slash-free n, such as "/etc/deck.pptx", resolves to "<root>/" + n |
| `PptCreatorProperties.AbsoluteImagePathKept` | app/tool/ppt_creator.py:191-192 | an absolute image path such as "/etc/logo.png" is used as it is, outside the root |
| `PptCreatorProperties.FirstSlidesNumbered` | app/tool/ppt_creator.py:139-145 | after `create`, two `add_slide` calls report indices 0 and 1 |
| `PptCreatorProperties.CreateThenSaveAddsExtension` | app/tool/ppt_creator.py:218-228 | `create` with "deck" and then `save` writes the empty presentation to "<root>/deck.pptx" |
| `PptCreatorProperties.DotDotLeavesRoot` | app/tool/ppt_creator.py:90-95 | `..` segments are kept: "../x" resolves to "<root>/../x" and "/etc/.." to "<root>/..", both outside the root although they start with the root string; the image path "../x.png" likewise resolves to "<root>/../x.png" |

## Left out

- The presentation library itself: template contents, layout geometry, placeholder kinds beyond the idx lookup, and the binary file format. Saving records the written presentation under its path in `State.saved`.
- Picture placement and size (`Inches(1)`, `Inches(2)`, `Inches(4)`). These are rendering details.
- Directory creation (`os.makedirs`). Only its possible failure is modelled, as `Env.canMakeDirs`. The failure becomes the catch-all error, and the path is not stored.
- `os.path.exists`. It is modelled as membership in `Env.existing`.
- Library exceptions are outcomes chosen by `Env`. A failing `add_picture` gives `ImageInsertFailed`; a failing write gives `SaveFailed`. Other exceptions are not modelled. Assigning `text` to a shape without a text frame (lines 143 and 166) is a plain Python attribute assignment that does not raise, so the model reports success and leaves the document unchanged.
- `async`/`await`. It is the host's calling convention; nothing runs concurrently.
- The JSON parameter schema. Only its two enums matter, and the layout table and the dispatcher capture them.
- The exact wording of messages. Results are tagged `Output`/`Error` values that carry the slide index, path, slide type or action each message names.
- `app/prompt/manus.py`. It holds prompt strings and no logic.
- PptCreator.Session.constructor: requires an absolute workspace root. The configuration supplies an absolute directory. With that root, the fallback to the raw `file_path` in `create` (line 124) can never fire; `CreateSpec` still models it.
- Confinement to the workspace root: the code does not normalise `..`, so neither the code nor the model keeps resolved paths inside the root. The model promises only that they start with the root string, and `DotDotLeavesRoot` shows the escape.
- Python-level type confusion (a `bool` passed as `slide_index`, non-string paths) is not modelled. Arguments have their declared types.
