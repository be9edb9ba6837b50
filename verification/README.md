# PixelContext wizard, modelled in Dafny

PixelContext is a client-side "image optimisation" page. The user uploads an
image, picks a usage context (e-commerce, Instagram, website, general) and
watches a simulated four-step processing animation. The page then shows a
before/after comparison with a download button. No image is ever transformed:
the "optimised" image is the original one, and the 65% reduction and 98%
quality figures are constants.

This project models the page's sequential logic and proves properties of it:

- `Index` (src/pages/Index.tsx) is the wizard controller. It has four stages
  (upload, context, processing, result) and a quota of five optimisations.
  `Session` holds the page's seven state slots. The pure functions
  `SelectFile`, `CompleteRead`, `SelectContext`, `Optimize` and `Reset` specify
  the handlers. The class `Wizard` holds the same slots as fields, and its
  handler methods are proved to perform exactly those transitions. The
  optimise handler steps through the four sub-stages in a loop. Event traces
  (`Step`, `Run`, `Enabled`) carry the whole-session results: the quota, the
  counter never decreasing, and the displayed size staying within the upload
  limit.
- `Upload` (src/components/UploadZone.tsx) holds the file validator and the
  choice of the first dropped or picked file. The class `UploadZone` holds the
  drag-active flag.
- `ProcessingLoader` (src/components/ProcessingLoader.tsx) is the table from
  sub-stage to caption and progress.
- `ContextSelector` (src/components/ContextSelector.tsx) is the context
  catalog and the cards drawn from it.
- `ImageComparison` (src/components/ImageComparison.tsx) covers size labels
  with binary units, the savings figure, the ratio label and the fixed quality
  and format figures.
- `Decimal` writes an integer as decimal text, as JavaScript does when it
  joins a number to a string. It also provides the parser that undoes this.
  `Wrappers` holds `Option`.

Three points about the code's behaviour:

- The quota guards uploads (`dailyCount >= 5` refuses a file). The counter,
  however, counts completed optimisations, not accepted uploads.
- The `isProcessing` prop of the upload zone only greys out and disables the
  input. The page never passes it, so no handler logic rejects input while
  processing.
- `processingStage` is not cleared by reset. It keeps the last sub-stage shown.

## Model

| member | source | states |
|---|---|---|
| `Upload.Validate` | src/components/UploadZone.tsx:45-60 | A file is accepted iff its type is jpeg, png or webp and its size is at most 20 MiB. A bad type is reported as unsupported format whatever the size; a good type that is too large is reported as too large. |
| `Upload.SizeLimitInclusive` | src/components/UploadZone.tsx:47-57 | A file of exactly 20·1024·1024 bytes is accepted; one byte more is rejected as too large. |
| `Upload.Deliver` | src/components/UploadZone.tsx:19-21 | A file is handed on iff it is present and validates, and it is handed on unchanged. An alert is raised iff it is present and rejected, carrying the validator's reason. Never both. |
| `Upload.FirstFile` | src/components/UploadZone.tsx:18 | The dropped file is present iff the list is non-empty, and it is the list's first element. |
| `Upload.PickedFile` | src/components/UploadZone.tsx:37 | The picked file is present iff the list exists and is non-empty, and it is the first element. |
| `Upload.DropAgreesWithPick` | src/components/UploadZone.tsx:13-43 | Dropping a list and picking the same list deliver the same outcome. |
| `Upload.DeliveredFileIsValid` | src/components/UploadZone.tsx:18-21 | Whatever reaches `onFileSelect` is the first file of the list, with an allowed type and a size within the limit. |
| `Upload.UploadZone.constructor` | src/components/UploadZone.tsx:11 | The drag flag starts false. |
| `Upload.UploadZone.HandleDragOver` | src/components/UploadZone.tsx:26-29 | Drag-over sets the flag. |
| `Upload.UploadZone.HandleDragLeave` | src/components/UploadZone.tsx:31-33 | Drag-leave clears the flag. |
| `Upload.UploadZone.HandleDrop` | src/components/UploadZone.tsx:13-24 | A drop clears the flag and delivers exactly what `Deliver` gives for the first file. The flag plays no part in validation. |
| `Upload.UploadZone.HandleFileInput` | src/components/UploadZone.tsx:35-43 | A pick delivers exactly what `Deliver` gives for the first picked file, and leaves the flag alone. |
| `ProcessingLoader.Rank` | src/pages/Index.tsx:59 | Each sub-stage sits at exactly one position of the fixed order uploading, analyzing, optimizing, finalizing. |
| `ProcessingLoader.Lookup` | src/components/ProcessingLoader.tsx:7-15 | The table is total. Each caption is non-empty. Progress is 25, 50 and 75 for the first three sub-stages and 95 for the last, so it always lies strictly between 0 and 100. |
| `ProcessingLoader.ProgressFollowsOrder` | src/components/ProcessingLoader.tsx:8-11 | One sub-stage comes before another iff its progress is smaller. |
| `ProcessingLoader.PipelineProgressIncreases` | src/components/ProcessingLoader.tsx:8-11 | Along the pipeline, progress strictly increases and never reaches 100. |
| `ContextSelector.Catalog` | src/components/ContextSelector.tsx:12-41 | Exactly four entries: ecommerce, instagram, web, general, in that order. The ids are pairwise distinct and non-empty, and each entry has three hints. |
| `ContextSelector.CardsFor` | src/components/ContextSelector.tsx:59-61 | One card per entry, in order, each carrying its entry. A card is selected iff the entry's id equals the selected context. |
| `ContextSelector.OnCardClick` | src/components/ContextSelector.tsx:61-66 | Under any current selection, clicking catalog card i reports card i's id, which is non-empty. Fed back as the selection, that id highlights card i and no other. Clicking the card already selected reports the current selection again. |
| `ContextSelector.AtMostOneSelected` | src/components/ContextSelector.tsx:61 | With distinct ids, no two different cards are selected at once. |
| `ContextSelector.EmptySelectionHighlightsNothing` | src/components/ContextSelector.tsx:61 | With the empty selection, no catalog card is selected. |
| `ContextSelector.ClickSelectsExactlyThatCard` | src/components/ContextSelector.tsx:61-66 | From any selection (none, another card, or card i itself), after card i is clicked and its id is fed back, card i is the only selected card. |
| `ContextSelector.ReclickKeepsSelection` | src/components/ContextSelector.tsx:61-66 | Re-clicking the selected card reports the same id, and the highlighting stays as it was. |
| `ImageComparison.FormatSize` | src/components/ImageComparison.tsx:24-28 | The unit is B below 1024, KB from 1024 up to but not including 1024·1024, and MB above that. A B label is the count's decimal text followed by " B". |
| `ImageComparison.UnitMonotone` | src/components/ImageComparison.tsx:25-27 | A larger byte count never gets a smaller unit. |
| `ImageComparison.BytesLabelReadsBack` | src/components/ImageComparison.tsx:25 | A B label ends in " B", and the count can be read back from the rest. |
| `ImageComparison.FormatSizeExamples` | src/components/ImageComparison.tsx:24-28 | 500 is shown as "500 B", 2048 in KB, and 5 MiB in MB. |
| `ImageComparison.RatioLabel` | src/components/ImageComparison.tsx:39 | The ratio label ends in "%", and the text before it reads back as exactly the ratio passed in. |
| `ImageComparison.Present` | src/components/ImageComparison.tsx:59-96 | Each size caption is that size's label. Savings is the label of the difference of the two sizes. The ratio is the ratio label. Quality "98%" and format "WebP" are constants. |
| `Decimal.Digits` | src/components/ImageComparison.tsx:25 | A count is written as a non-empty string of decimal digits with no leading zero. |
| `Decimal.IntText` | src/components/ImageComparison.tsx:25 | An integer's text is non-empty, and it starts with '-' iff the integer is negative. |
| `Decimal.DigitsRoundTrip` | src/components/ImageComparison.tsx:25 | Reading back the digits of n gives n. |
| `Decimal.IntTextRoundTrip` | src/components/ImageComparison.tsx:39 | Parsing an integer's text gives the integer back. |
| `Index.SelectFile` | src/pages/Index.tsx:23-33 | At a count of 5 or more, nothing changes and a destructive notice is raised. Below it, no notice is raised and only the selected file changes, to the given file; the stage stays put. |
| `Index.CompleteRead` | src/pages/Index.tsx:35-38 | When the read completes, the data URL becomes the original image and the stage becomes context. Nothing else changes. |
| `Index.SelectContext` | src/pages/Index.tsx:42-44 | Only the selected context changes, to the given id. |
| `Index.SelectContextIdempotent` | src/pages/Index.tsx:42-44 | Selecting the same id twice leaves the same session as selecting it once. |
| `Index.Optimize` | src/pages/Index.tsx:46-75 | With an empty context, nothing changes and a destructive notice is raised. Otherwise, at completion the optimised image equals the original, the counter has risen by exactly one, the last sub-stage shown is finalizing and the stage is result. Nothing else changes, and a completion notice is raised. |
| `Index.Reset` | src/pages/Index.tsx:89-95 | The new session is the initial one, except that the counter and the last sub-stage are kept. |
| `Index.DownloadName` | src/pages/Index.tsx:80 | The name is "optimized-", then the base, then ".webp". The base is the file's name, or "image" when there is no file or its name is empty. |
| `Index.ResultFigures` | src/pages/Index.tsx:206-213 | Figures exist iff the stage is result and a file is selected. The original size is the file's size. The optimised size is 35% of it rounded down, so never more than the original. The ratio is 65. |
| `Index.SavingsNonNegative` | src/pages/Index.tsx:211-213 | With the page's figures, the savings shown are the difference of the two sizes. That difference is non-negative and at least 65% of the original. |
| `Index.Enabled` | src/pages/Index.tsx:122-216 | The page offers nothing while processing. File choices and read completions happen only in the upload stage, and only validated files arrive. Card clicks and optimise happen only in the context stage, and optimise only with a context selected (the button is disabled otherwise). Download happens only when the result view is shown, that is in the result stage with a file. Reset happens only from the context stage or from the shown result view. |
| `Index.CountTracksCompletions` | src/pages/Index.tsx:68 | Over any trace, the counter rises by exactly the number of optimisations that get past the context check. |
| `Index.CountNeverDecreases` | src/pages/Index.tsx:68 | Over any trace, the counter after a prefix is at most the counter after the whole trace. |
| `Index.StepKeepsReachable` | src/pages/Index.tsx:24-31 | One event the page offers keeps the reachable-session invariant. The invariant is: the counter is within the quota; a session past the upload guard is below it; a selected file was accepted; the context is empty or a catalog id. |
| `Index.RunKeepsReachable` | src/pages/Index.tsx:24-31 | Every trace of offered events keeps that invariant. |
| `Index.QuotaHolds` | src/pages/Index.tsx:24-31 | From a fresh page, along any trace of offered events, at most five optimisations complete and the counter never exceeds five. |
| `Index.ShownSizeWithinLimit` | src/pages/Index.tsx:211 | Every result the page can show reports an original size of at most 20 MiB. |
| `Index.LateReadExceedsQuota` | src/pages/Index.tsx:35-38 | Take a result page at the quota. A read that completes then is not an offered event, but the code reopens the context stage. The page then offers a card click and optimise, and the counter reaches six. |
| `Index.FileChoiceAtQuotaChangesNothing` | src/pages/Index.tsx:24-31 | At the quota, choosing any file in any stage leaves the session unchanged. |
| `Index.Wizard.constructor` | src/pages/Index.tsx:14-20 | The seven slots start as the initial session: stage upload, sub-stage uploading, no file, empty context and images, counter 0. |
| `Index.Wizard.HandleFileSelect` | src/pages/Index.tsx:23-33 | It updates the fields and returns the notice exactly as `SelectFile` prescribes. |
| `Index.Wizard.HandleReadComplete` | src/pages/Index.tsx:35-38 | It updates the fields exactly as `CompleteRead` prescribes. |
| `Index.Wizard.HandleContextSelect` | src/pages/Index.tsx:42-44 | It updates the fields exactly as `SelectContext` prescribes. |
| `Index.Wizard.HandleOptimize` | src/pages/Index.tsx:46-75 | It ends in the state and notice `Optimize` prescribes. The sub-stages it sets are uploading, analyzing, optimizing, finalizing, each once and in that order, or none when no context is selected. |
| `Index.Wizard.HandleDownload` | src/pages/Index.tsx:77-87 | The link points at the optimised image under `DownloadName` of the selected file. The notice is the non-destructive download notice, and no field changes. |
| `Index.Wizard.HandleReset` | src/pages/Index.tsx:89-95 | It updates the fields exactly as `Reset` prescribes. |

## Left out

- Markup, styling, icons and the wording of toasts and alerts are not modelled. Toasts are `Index.Notice` values, and alerts are `Upload.ValidationError` values.
- The browser file read is not modelled. Its result, a data URL, is the `dataUrl` parameter of `HandleReadComplete`. The code has no failure path for the read, so the model has none either.
- The 1200 ms pause between sub-stages and React's batching of state updates are not modelled. The four sub-stages are a loop inside `HandleOptimize`, and no event can arrive between them. The processing stage is therefore visible only inside that method.
- Index.QuotaHolds: holds only for runs in which each file read completes while the page is still in the upload stage with its file selected (`Index.Enabled`). The code does not guard against other runs, and in them the quota breaks. For example, two files are chosen before the first read completes, and the second read completes after the fifth optimisation. The page then goes back to the context stage and allows a sixth optimisation (`Index.LateReadExceedsQuota`). The same restriction applies to Index.ShownSizeWithinLimit.
- Index.Optimize: a second click on the optimise button before the page re-renders would start a second pipeline and add one more to the counter. Clicks are modelled as one at a time, so this race is not modelled.
- Index.ResultFigures: `Math.floor(size * 0.35)` is computed in floating point. The model uses the exact integer `size * 35 / 100`, and the two can differ by one at some sizes.
- ImageComparison.FormatSize: the two-decimal KB and MB text (`toFixed(2)`) is floating-point formatting and is not modelled. Only the unit is kept, together with the byte count.
- Decimal.IntText: JavaScript writes numbers of 10^21 or more in exponent notation. The model always writes plain digits.
- The DOM mechanics of the download link are not modelled. Only the link target and the file name are kept.
- `preventDefault` on drag events is browser behaviour and is not modelled.
- The `isProcessing` prop of the upload zone only changes styling and the input's `disabled` attribute, and the page never passes it. It is not modelled.
