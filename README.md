# Coloring app: a Dafny model of its page logic

The application lets children pick, generate or upload line-art images. They
colour the images on an in-browser canvas, browse a gallery and print page sets.
It is a thin React front end. Its behaviour lives in small rules spread over the
pages, the helpers and a mock AI service. This project models those rules and
proves what they promise.

- `wrappers.dfy`: `Option`, which stands for JavaScript's `undefined`/`null` and for optional fields.
- `strings.dfy`: `startsWith`, `includes`, ASCII `toLowerCase` and decimal rendering of numbers, with their lemmas.
- `types.dfy`: the record shapes of `src/types/index.ts`.
- `helpers.dfy`: upload validation and the difficulty, category and age lookup tables.
- `header.dfy`: the navigation items and the rule that highlights the current one.
- `coloring.dfy`: the colouring session. It is made of three classes.
  - `ColoringSession` holds the tool, size, colour and image, plus the canvas.
  - `Canvas` holds the drawing mode, the current brush and the object stack.
  - `PencilBrush` holds a colour and a width.
  The handlers update these in place. The predicate `InSync` says that the brush agrees with the selected tool, and every handler preserves it.
- `gallery.dfy`: the search/category/difficulty filter, Clear Filters, the colour chips and the download name.
- `upload.dfy`: the upload page state (`uploadedImages`, `processing`), file selection, status colours and the card click guard.
- `ai_service.dfy`: the canned images, stories and palettes, each with an `animals` fallback.
- `page_set.dfy`: the printable page set of `src/App.js`. A shuffled pool of 20 icons is cycled to fill the pages, and the pages are written into one print document.

Clocks and randomness are parameters:
- `now` stands for `Date.now()`;
- `shuffled` is any permutation of the icon pool, standing for the `sort` with a random comparator;
- `pick` is the random palette index.

Behaviour worth knowing, as the code has it:
- The brush-size handler does not clamp. Its input is bounded only by the slider's `min={1}`/`max={50}`, which is why `HandleBrushSizeChange` requires `1 <= size <= 50`.
- Undo removes the top object whenever there are at least two. It does not check that the bottom object is the outline image.
- The `fill` tool only turns drawing mode off. There is no flood fill.
- The page-set generator of `src/App.js` has no category filter. It uses one fixed pool.

## Model

| member | source | states |
|---|---|---|
| `Helpers.ValidateImageFile` | src/utils/helpers.ts:15-27 | valid exactly when the MIME type starts with `image/` and the size is at most 10485760 bytes; valid exactly when there is no error; a non-image gets "Please select an image file!", an oversized image the too-large message |
| `Helpers.TypeCheckedBeforeSize` | src/utils/helpers.ts:17-24 | a non-image file over 10 MiB reports the type error, because the type check runs first |
| `Helpers.SizeBoundary` | src/utils/helpers.ts:22-24 | an image of exactly 10485760 bytes passes (strict `>`); one byte more fails with the too-large message |
| `Helpers.GetDifficultyColor` | src/utils/helpers.ts:29-40 | easy, medium and hard get their colours; the grey `#9E9E9E` is returned exactly for every other string |
| `Helpers.DifficultyColorsDistinct` | src/utils/helpers.ts:29-40 | the three difficulties map to three different colours |
| `Helpers.GetCategoryIcon` | src/utils/helpers.ts:42-57 | five named categories get their icons (paw prints, dragon, blossom, car, pizza), and the palette icon is returned exactly for every other string |
| `Helpers.CategoryIconsAsWritten` | src/utils/helpers.ts:44-55 | the six icon literals exactly as the file spells them, paired with their category (the empty string standing for `default`) |
| `Helpers.CategoryIconsAsWrittenMisencoded` | src/utils/helpers.ts:44-55 | as written, every icon literal is three or four mis-decoded characters starting with U+00F0 U+0178, and none equals the emoji it stands for |
| `Helpers.CategoryIconsAreSingleSymbols` | src/utils/helpers.ts:42-57 | corrected: every icon is one symbol, and the five named categories have icons distinct from each other and from the default |
| `Helpers.GetAgeAppropriateMessage` | src/utils/helpers.ts:88-96 | three bands, each with its own message: age < 6, 6 <= age < 10, age >= 10 |
| `Helpers.YoungestMessageAsWritten` | src/utils/helpers.ts:90 | the under-6 message exactly as the file spells it |
| `Helpers.MiddleMessageAsWritten` | src/utils/helpers.ts:92 | the 6-to-10 message exactly as the file spells it |
| `Helpers.OldestMessageAsWritten` | src/utils/helpers.ts:94 | the 10-and-over message exactly as the file spells it |
| `Helpers.AgeMessagesAsWrittenMisencoded` | src/utils/helpers.ts:90-94 | as written, each message is its sentence followed by three or four mis-decoded characters in place of the emoji |
| `Helpers.AgeMessagesEndInOneEmoji` | src/utils/helpers.ts:88-96 | corrected: every message ends in "! " and one emoji, a different one per band |
| `Header.NavItems` | src/components/Header.tsx:27-32 | the four items Home `/`, Color `/color/new`, Gallery `/gallery`, Upload `/upload`, in that order |
| `Header.IsActive` | src/components/Header.tsx:34-39 | `/` is active exactly on `/`; any other path is active exactly when the pathname starts with it |
| `Header.HomeNotActiveOnGallery` | src/components/Header.tsx:35-37 | Home is not active on `/gallery` although `/` is a prefix of it |
| `Header.UploadActiveOnUploads` | src/components/Header.tsx:38 | no segment boundary: `/upload` is active on `/uploads` |
| `Header.ColorNotActiveOnOtherImage` | src/components/Header.tsx:29-38 | Color links to `/color/new` and is not active on `/color/5` |
| `Header.NavPathsDistinct` | src/components/Header.tsx:27-32 | four nav items with pairwise distinct paths |
| `Header.AtMostOneActive` | src/components/Header.tsx:27-39 | for any pathname at most one nav item is highlighted |
| `Coloring.ColoringSession.constructor` | src/pages/ColoringPage.tsx:46-49 | a new session has tool brush, size 10, colour `#FF6B9D`, no image and no canvas |
| `Coloring.LoadColoringImage` | src/pages/ColoringPage.tsx:62-93 | route `new` opens the generated "Happy Cat" of the animals category; any other route opens the stored cat under its id, or `1` when the id is missing or empty |
| `Coloring.LoadedImageExportsUnderItsTitle` | src/pages/ColoringPage.tsx:62-93 | every image a session opens has the title "Happy Cat", so exports use that title |
| `Coloring.ColoringSession.SetColoringImage` | src/pages/ColoringPage.tsx:68-83 | records the loaded image and changes nothing else |
| `Coloring.ColoringSession.InitializeCanvas` | src/pages/ColoringPage.tsx:101-131 | with an image and a mounted element: a fresh, empty canvas in drawing mode; the library's brush, if any, gets the selected size and colour; the session is then in sync when the tool is brush |
| `Coloring.Canvas.Add` | src/pages/ColoringPage.tsx:121 | the object goes on top of the stack; drawing mode and brush unchanged |
| `Coloring.ColoringSession.AddObject` | src/pages/ColoringPage.tsx:113-123 | the outline (once loaded) or a drawn path is pushed on top; nothing else changes and sync is kept |
| `Coloring.ColoringSession.HandleToolChange` | src/pages/ColoringPage.tsx:133-153 | tool stored; drawing mode on exactly for brush and eraser; brush and eraser install a new brush of the selected size, coloured with the selected colour or `#ffffff`; fill leaves the brush untouched; objects unchanged; sync kept |
| `Coloring.ColoringSession.HandleColorChange` | src/pages/ColoringPage.tsx:155-160 | selected colour always updated; the brush colour changes only while the tool is brush (the eraser stays white); width, tool, size and canvas unchanged; sync kept |
| `Coloring.ColoringSession.HandleBrushSizeChange` | src/pages/ColoringPage.tsx:162-168 | the stored size and the brush width both become the slider value, whatever the tool; brush colour unchanged; sync kept |
| `Coloring.ColoringSession.HandleUndo` | src/pages/ColoringPage.tsx:170-179 | the object stack becomes `UndoObjects` of the old one; drawing mode and brush unchanged |
| `Coloring.UndoObjects` | src/pages/ColoringPage.tsx:173-176 | the stack after one undo is a prefix of the old one, one object shorter when there were at least two and unchanged otherwise |
| `Coloring.UndoRemovesTop` | src/pages/ColoringPage.tsx:173-176 | with more than one object, undo removes exactly the top one and keeps the rest in order; otherwise it is a no-op |
| `Coloring.UndoTimesKeepsBottom` | src/pages/ColoringPage.tsx:174 | k undos leave the first max(1, n-k) objects, in order, so the bottom object is never removed; an empty stack stays empty |
| `Coloring.ExportTitle` | src/pages/ColoringPage.tsx:195 | the image title, or `artwork` when there is no image or the title is empty; never empty |
| `Coloring.ExportFileName` | src/pages/ColoringPage.tsx:195 | `coloring-<title>.<ext>`, as the PNG name here and the PDF name at line 238 are built: starts with `coloring-` and is as long as prefix, export title, dot and extension together |
| `Coloring.ExportFileNameRoundTrip` | src/pages/ColoringPage.tsx:195 | the export name starts with `coloring-`, and splitting off that prefix and the `.<ext>` suffix reads back the export title |
| `Coloring.ExportFileNameDistinguishesTitles` | src/pages/ColoringPage.tsx:238 | images with different non-empty titles export under different names |
| `Coloring.ColoringSession.HandleSave` | src/pages/ColoringPage.tsx:186-199 | a name exactly when there is a canvas: `coloring-<title>.png` |
| `Coloring.ColoringSession.HandleExportPdf` | src/pages/ColoringPage.tsx:219-241 | a name exactly when there is a canvas: `coloring-<title>.pdf` |
| `Gallery.FindImage` | src/pages/GalleryPage.tsx:143 | `find` by id: nothing exactly when no image has the id; otherwise an image of the list with that id |
| `Gallery.FindImageIsFirst` | src/pages/GalleryPage.tsx:143 | when ids repeat, the first matching image is found |
| `Gallery.FindImageAtFirstIndex` | src/pages/GalleryPage.tsx:143 | `find` yields an image exactly when some index is the first to carry the id, and then the image at that index |
| `Gallery.MatchesSearch` | src/pages/GalleryPage.tsx:140-141 | the lower-cased term occurs at some position of the lower-cased title or of the lower-cased description |
| `Gallery.SearchIgnoresTermCase` | src/pages/GalleryPage.tsx:140-141 | the search result does not depend on the case of the term |
| `Gallery.MatchesCategory` | src/pages/GalleryPage.tsx:142-143 | `all` matches every artwork; a selected category matches only artworks whose linked image is found |
| `Gallery.MatchesDifficulty` | src/pages/GalleryPage.tsx:144-145 | `all` matches every artwork; a selected difficulty matches only artworks whose linked image is found |
| `Gallery.SelectorsJudgeFirstLinkedImage` | src/pages/GalleryPage.tsx:142-145 | a selected category (difficulty) matches exactly when the first image carrying the artwork's id has that category (difficulty) |
| `Gallery.FilteredArtworks` | src/pages/GalleryPage.tsx:139-148 | an artwork is listed exactly when it is in `artworks` and passes search, category and difficulty; each passing artwork occurs as many times as in `artworks` and every other one not at all |
| `Gallery.FilteredIsSubsequence` | src/pages/GalleryPage.tsx:139-148 | the filtered list is an order-preserving subsequence of `artworks` |
| `Gallery.UnlinkedDroppedWhenFiltering` | src/pages/GalleryPage.tsx:142-145 | an artwork without a linked image is dropped once a category or difficulty is selected |
| `Gallery.ClearFilters` | src/pages/GalleryPage.tsx:257-261 | search becomes empty and both selectors `all`, which are exactly the filters the page starts with (lines 44-46) |
| `Gallery.ClearedShowsEverything` | src/pages/GalleryPage.tsx:140-147 | after Clear Filters the filtered list equals `artworks` |
| `Gallery.VisibleColors` | src/pages/GalleryPage.tsx:326 | the first min(5, n) colours, in order |
| `Gallery.MoreColorsCount` | src/pages/GalleryPage.tsx:338-340 | the "+N more" caption is present exactly when n > 5 |
| `Gallery.ChipsAccountForAllColors` | src/pages/GalleryPage.tsx:326-340 | the visible chips plus the "+N more" count add up to n |
| `Gallery.DownloadFileName` | src/pages/GalleryPage.tsx:172 | the name starts with the artwork's title and is four characters (`.png`) longer |
| `Gallery.DownloadFileNameRoundTrip` | src/pages/GalleryPage.tsx:172 | stripping `.png` from the download name reads the title back, so different titles download under different names |
| `Upload.UploadPageState.constructor` | src/pages/UploadPage.tsx:33-34 | no uploads and not processing |
| `Upload.UploadPageState.HandleFileSelect` | src/pages/UploadPage.tsx:37-71 | no files: nothing changes; only the first file is examined; a non-image or oversized file is rejected with its alert and nothing changes; a valid file leaves `processing` false, prepends the processed image on success (older entries in order) and navigates to it, or reports failure and keeps the list |
| `Upload.PageValidationMatchesHelper` | src/pages/UploadPage.tsx:43-52 | the page's inline checks reject the same files, for the same reason, as the shared validation helper |
| `Upload.GetStatusColor` | src/pages/UploadPage.tsx:110-121 | completed -> success, processing -> warning, failed -> error, and `default` exactly for anything else |
| `Upload.EveryStatusHasAColor` | src/pages/UploadPage.tsx:110-121 | no status an upload can have falls through to `default` |
| `Upload.CardClickTarget` | src/pages/UploadPage.tsx:321-325 | a card navigates, to `/color/<id>`, exactly when its status is completed |
| `Upload.ColorPath` | src/pages/UploadPage.tsx:62 | the navigation target (here and at line 323) starts with `/color/` and is followed by exactly the id |
| `Upload.ColorPathOpensItsImage` | src/pages/UploadPage.tsx:62 | the `:id` of `/color/<id>` is the id itself, and the colouring page (src/pages/ColoringPage.tsx:71-72) opens an image under that id for any id but `new` and the empty one |
| `AiService.MockImages` | src/services/aiService.ts:45-58 | only animals, fantasy and nature have canned images |
| `AiService.ImageSetFor` | src/services/aiService.ts:60 | a known category gets its own pair; any other gets the animals pair |
| `AiService.GenerateColoringImage` | src/services/aiService.ts:36-74 | title is the prompt, or `<category> Drawing` when it is empty; category echoed; tags `[category, 'ai-generated']`; difficulty medium; AI-made; URLs from the looked-up pair |
| `AiService.UnknownCategoryFallsBack` | src/services/aiService.ts:45-72 | an unknown category gets the animal pictures but keeps its own name as category and tag; known categories get distinct outlines |
| `AiService.GeneratedIdsDiffer` | src/services/aiService.ts:63 | images generated at different times get different ids |
| `AiService.Stories` | src/services/aiService.ts:86-105 | only animals, fantasy and nature have stories |
| `AiService.StoryFor` | src/services/aiService.ts:107 | a known theme gets its own story; any other gets the animals story |
| `AiService.GenerateStory` | src/services/aiService.ts:77-118 | echoes `artworkId`; title, content, characters and theme come from the looked-up story |
| `AiService.StoryIgnoresColors` | src/services/aiService.ts:77-111 | the story does not depend on the colours; an unknown theme tells the animals story |
| `AiService.GenerateOutline` | src/services/aiService.ts:8-33 | status completed, no error, original URL is the file's object URL, outline is an SVG data URL |
| `AiService.ColorPalette` | src/services/aiService.ts:125-129 | three categories have palettes, each of five colours |
| `AiService.GetColorSuggestions` | src/services/aiService.ts:121-136 | five colours, equal to one of the three fixed palettes |
| `PageSet.FreeIconSources` | src/App.js:9-30 | the pool has 20 icons |
| `PageSet.FreeIconSourcesDistinct` | src/App.js:9-30 | the 20 icons are pairwise distinct |
| `PageSet.ShuffleLength` | src/App.js:34 | a shuffle of the pool has 20 items |
| `PageSet.ShuffleIsDistinct` | src/App.js:34 | a shuffle of the pool has no duplicates |
| `PageSet.Cycle` | src/App.js:37-39 | `count` items, item i being `pool[i % |pool|]` |
| `PageSet.GetRandomImages` | src/App.js:32-42 | the result is the shuffle cycled to `count` items (none for a negative count) |
| `PageSet.CycleDrawsFromPool` | src/App.js:34-38 | every returned URL is one of the pool's icons |
| `PageSet.NoRepeatsUpToPoolSize` | src/App.js:34-39 | for count <= 20 the result has no duplicates |
| `PageSet.CycleOccurrences` | src/App.js:37-39 | the icon at position j appears count/20 times, plus one when j < count % 20 |
| `PageSet.OccurrencesBalanced` | src/App.js:37-39 | each icon appears floor(count/20) or ceil(count/20) times |
| `PageSet.PageLabelsDistinct` | src/App.js:79 | different page numbers give different "Page i of n" captions |
| `PageSet.PageMarkup` | src/App.js:75-89 | one page block: heading with its caption, the image, and the name/date footer; its properties are stated by `PageSet.PageMarkupShowsImage` |
| `PageSet.PrintContentUpTo` | src/App.js:56-90 | the text after the first k pages: the head, then the page blocks 0..k-1; its properties are stated by `PageSet.PrintContentGrows` |
| `PageSet.PageMarkupShowsImage` | src/App.js:75-89 | a page block opens with its "Page i+1 of n" caption and has the image URL right after the image tag |
| `PageSet.PrintDocument` | src/App.js:56-92 | the document starts with the head and ends with the closing tags |
| `PageSet.PrintContentGrows` | src/App.js:73-90 | appending pages keeps the head and every earlier page in place (the text after j pages is a prefix of the text after k >= j pages) |
| `PageSet.PrintMultiplePages` | src/App.js:51-98 | the document is the head, then one page block per i from 0 to selectedPages-1 (captioned "Page i+1 of selectedPages", showing image i), then the closing tags |
| `PageSet.PrintButtonLabel` | src/App.js:127 | the label starts with "Print <n> Page" |
| `PageSet.PrintButtonPlural` | src/App.js:127 | "Page" for one page (or fewer), "Pages" for more |
| `PageSet.PageCountOptionsAsWritten` | src/App.js:115-124 | the ten selector options, values 5 to 50, with their captions as the page writes them |
| `PageSet.FiveOptionCaptionIsSingular` | src/App.js:115 | the first selector option is captioned "5 Page", not the "5 Pages" the pluralisation rule gives |
| `PageSet.PageCountOptionsPlural` | src/App.js:115-124 | corrected: every option is between 5 and 50 and captioned "<n> Pages", the same as the print button |
| `Strings.IncludesAt` | src/pages/GalleryPage.tsx:140-141 | `includes` holds exactly when the term occurs at some position |
| `Strings.ParseNatToString` | src/App.js:79 | the decimal text of a page number reads back as that number |

## Findings

| source | as written | input that shows it | evidently intended | confidence | as-written member | corrected member |
|---|---|---|---|---|---|---|
| src/App.js:115 | the first page-count option is captioned "5 Page" | the selector's first option, value 5 | "5 Pages", as the nine other options and the print button ("Print 5 Pages as PDF") write it | high; not executed | `PageSet.FiveOptionCaptionIsSingular` | `PageSet.PageCountOptionsPlural` |
| src/utils/helpers.ts:44-55 | the category icons are stored as UTF-8 emoji bytes mis-decoded as Windows-1252 text (e.g. U+00F0 U+0178 U+00BE) | `getCategoryIcon('animals')` returns three Latin characters | the single emoji (paw prints for animals), as the other source files store their emoji | high; not executed | `Helpers.CategoryIconsAsWrittenMisencoded` | `Helpers.CategoryIconsAreSingleSymbols` |
| src/utils/helpers.ts:90-94 | the age messages end in the same mis-decoded text instead of their emoji | `getAgeAppropriateMessage(5)` ends in U+00F0 U+0178 U+0152 U+0178 | the glowing-star, palette and sparkles emoji | high; not executed | `Helpers.AgeMessagesAsWrittenMisencoded` | `Helpers.AgeMessagesEndInOneEmoji` |

## Left out

- Canvas rendering, outline loading (`FabricImage.fromURL`) and bitmap export (`toDataURL`) belong to the drawing library. Canvas objects carry only whether they are the outline or a drawn path.
- The library's `remove(object)` is modelled as dropping the top element. Canvas objects are distinct by identity, so both remove the same object.
- Whether the library's `Canvas` constructor supplies a brush is a parameter of `InitializeCanvas`. The brush's default colour and width are overwritten before use.
- The outline is added asynchronously, so nothing ties index 0 of the stack to the outline image. The model does not claim it.
- PDF composition with jsPDF, its page-height arithmetic (floating point), and the unused html2canvas import are left out.
- Clipboard writes (`handleShare` on both pages), anchor downloads, `window.open`/`print`, `alert`, `console` and `navigate` are browser I/O. They appear only as returned file names, alert texts and navigation targets.
- `setTimeout` delays, `async`/`await` and `Promise.all` are timing. `HandleFileSelect` runs as one step, so the `processing == true` window during the await is not observable.
- `Date.now()`, `new Date()` and `Math.random` become the parameters `now`, `shuffled` and `pick`. `generateId`, `getRandomColor` and `formatDate` (locale-dependent) are left out. `URL.createObjectURL` and `btoa` become the parameters `objectUrl` and `encodedSvg` of `GenerateOutline`.
- The redo handler only shows an alert. The fill tool has no behaviour beyond turning drawing mode off.
- `handleGenerateStory`, `handleArtworkClick`, `handleLike` and the drag handlers only forward to modelled operations, set dialog state or log.
- `getStatusIcon` returns markup, and the MUI/JSX markup and styling are not modelled. The print document keeps its text, captions, images and footers but not its CSS block, the image `style` attribute or the template's whitespace.
- `toLowerCase` is modelled for ASCII letters only. There is no Unicode case mapping.
- Lookups use the three own keys of the service's tables. Inherited property names such as `constructor`, which a JavaScript object lookup would also find, are not modelled.
- Numbers: ages are reals with no NaN, file sizes are naturals, and the page count is an integer. A fractional `count` is not modelled.
- `generateOutlines` in `src/App.js` only stores `getRandomImages(selectedPages)` for the on-screen preview; the preview markup and the `parseInt` of the selector value are not modelled.
- `src/pages/HomePage.tsx`, `src/App.tsx` and `src/App.test.tsx` are not part of this model. `src/types/index.ts` only supplies the record shapes.
