# ocr-provenance Python workers, modelled in Dafny

This project models the decision and bookkeeping logic of the Python worker
scripts of ocr-provenance, an OCR and provenance system. Each worker is a
short-lived process that an MCP server calls. The workers modelled here are:

- the embedding worker: device resolution, a one-slot model cache, and
  out-of-memory backoff by halving the batch size;
- the GPU diagnostics: device detection, the GPU, VRAM and model checks, and
  the CLI's error table;
- the OCR worker: the input checks, page-offset parsing, and `max_pages`
  truncation;
- the image extractors for DOCX and PDF: filtering, conversion fallbacks,
  per-page numbering, the image cap, and failure accounting;
- the clustering worker: input validation, algorithm dispatch, the default
  `k`, label bookkeeping, and per-cluster centroids and coherence;
- the image optimizer: relevance scoring, category prediction, the VLM skip
  decision, and resizing;
- the cross-encoder reranker: its model cache, passage truncation, and the
  stable descending sort;
- two Datalab clients, the file manager and the form filler: the mapping of
  SDK exceptions, key checks, content types, metadata serialisation, and the
  validation around each SDK call.

Every call into a library the workers use is a parameter of the model. That
covers torch, sentence-transformers, PyMuPDF, Pillow, zipfile/XML, Inkscape,
ImageMagick, scikit-learn, the Datalab SDK and the file system. Where the worker branches
on a library's answer, the parameter is a value or an error, so each branch
can be stated and proved; a library check whose failure follows from the
inputs (scikit-learn's label count for the silhouette, Pillow's refusal of a
zero-pixel side) is computed by the model instead.

The image extractors record each problem they meet as a value (which image,
which step, the library's message). `Warning` gives the text the worker
would have appended for it, and a failed DOCX extraction's text is given by
`FailureText`.

Modules:

| file | module | models |
|---|---|---|
| wrappers.dfy | Wrappers | `Option` and `Result` |
| pystr.dfy | PyStr | the `str` operations the workers use (ASCII `lower`/`upper`, `in`, slicing, `isdigit`, `int`, `{:03d}`, list `repr`, sorting) |
| pypath.dfy | PyPath | `Path.name` and `Path.suffix` |
| gpu_utils.dfy | GpuUtils | `python/gpu_utils.py` |
| embedding.dfy | Embedding | `python/embedding_worker.py` |
| ocr.dfy | OcrWorker | `python/ocr_worker.py` |
| image_files.dfy | ImageFiles | what both image extractors share: file names, format filter, conversion chain |
| docx_images.dfy | DocxImages | `python/docx_image_extractor.py` |
| pdf_images.dfy | PdfImages | `python/image_extractor.py` |
| clustering.dfy | Clustering | `python/clustering_worker.py` |
| image_optimizer.dfy | ImageOptimizer | `python/image_optimizer.py` |
| reranker.dfy | Reranker | `python/reranker_worker.py` |
| datalab.dfy | Datalab | what the two Datalab workers share |
| file_manager.dfy | FileManager | `python/file_manager_worker.py` |
| form_fill.dfy | FormFill | `python/form_fill_worker.py` |

Module-level caches that the source mutates are classes:
- `EmbeddingWorker` holds `_model`/`_device`;
- `RerankerCache` holds `_cached_model`/`_cached_model_name`.

Their methods state the new state and result as a pure step function of the
old state. The loops the source runs are methods with loop invariants, each
proved equal to a specification function:
- the OOM backoff;
- the page-offset parser;
- the truncation scan;
- both extraction loops;
- the centroid and coherence loops;
- the reranker's result loop;
- the metadata fallback.

The properties are lemmas about those functions.

## Model

| member | source | states |
|---|---|---|
| PyPath.Suffix | ocr-provenance/python/ocr_worker.py:261 | `Path.suffix` is empty or a dot followed by dot-free text, ending the final component and shorter than it |
| PyPath.NameSuffix | ocr-provenance/python/ocr_worker.py:261 | the suffix of one component is empty or a dot and dot-free text ending it |
| PyPath.SuffixOfName | ocr-provenance/python/ocr_worker.py:261 | `dir/stem.ext` has suffix `.ext` |
| PyPath.DotFileHasNoSuffix | ocr-provenance/python/ocr_worker.py:261 | a dot-file such as `.bashrc` has no suffix |
| PyPath.NameAfterDirectory | ocr-provenance/python/docx_image_extractor.py:374 | the last component after a directory is the name itself |
| PyStr.Lower | ocr-provenance/python/ocr_worker.py:261 | lowering keeps the length and lowers each character |
| PyStr.LowerIdempotent | ocr-provenance/python/ocr_worker.py:261 | lowering twice is lowering once |
| PyStr.Take | ocr-provenance/python/reranker_worker.py:63 | `s[:n]` is the prefix of length min(n, len(s)) |
| PyStr.NatToDecimal | ocr-provenance/python/image_optimizer.py:278 | `str(n)` is digits without a leading zero |
| PyStr.DecimalRoundTrip | ocr-provenance/python/ocr_worker.py:301 | `int(str(n)) == n` |
| PyStr.Pad3 | ocr-provenance/python/docx_image_extractor.py:484 | `{n:03d}` is at least three digits |
| PyStr.Pad3RoundTrip | ocr-provenance/python/docx_image_extractor.py:484 | the padded number reads back as the number |
| PyStr.Pad3Injective | ocr-provenance/python/docx_image_extractor.py:484 | distinct numbers pad differently |
| PyStr.Upper | ocr-provenance/python/docx_image_extractor.py:459 | upper-casing keeps the length and raises each character |
| PyStr.SortStrings | ocr-provenance/python/docx_image_extractor.py:364 | `sort()` gives a sorted permutation |
| GpuUtils.DetectBestDevice | ocr-provenance/python/gpu_utils.py:111-127 | the device is `cuda:0` exactly when torch and CUDA are present, `mps` exactly when CUDA is absent and MPS present, `cpu` otherwise (also without torch) |
| GpuUtils.VerifyGpu | ocr-provenance/python/gpu_utils.py:130-204 | fails (ImportError) exactly when torch is missing; without CUDA it reports unavailability, names the fallback device and zero/"N/A" figures; with CUDA free VRAM is total minus used |
| GpuUtils.NoCudaReportNamesFallback | ocr-provenance/python/gpu_utils.py:151-167 | without CUDA the report succeeds, says unavailable, and the named fallback is `mps` or `cpu` |
| GpuUtils.GetVramUsage | ocr-provenance/python/gpu_utils.py:207-251 | succeeds exactly with torch and CUDA; ImportError without torch, GPUNotAvailableError without CUDA; free is total minus reserved |
| GpuUtils.ClearGpuMemory | ocr-provenance/python/gpu_utils.py:337-359 | returns normally exactly when CUDA is there and the cache calls succeed; every failure is a GPUError, GPUNotAvailableError passing through unwrapped |
| GpuUtils.Missing | ocr-provenance/python/gpu_utils.py:277-278 | the missing files are exactly the required ones not present, no more than were required |
| GpuUtils.MissingModelFilesInOrder | ocr-provenance/python/gpu_utils.py:277-278 | missing files are listed in the fixed order config, weights, tokenizer |
| GpuUtils.VerifyModelLoading | ocr-provenance/python/gpu_utils.py:254-334 | directory and file checks fail first with the model path; only GPUNotAvailableError escapes unwrapped; success needs CUDA, a load and a clean cleanup, and reports `cuda:0` and the model's dimension |
| GpuUtils.SelectActions | ocr-provenance/python/gpu_utils.py:480-482 | with no action flag the GPU check runs; otherwise the flags are kept |
| GpuUtils.ReportError | ocr-provenance/python/gpu_utils.py:542-573 | the error type is GPU_NOT_AVAILABLE, EMBEDDING_MODEL_ERROR, IMPORT_ERROR or UNEXPECTED_ERROR exactly by the exception class, first handler winning; only model errors carry a path |
| GpuUtils.RunStep | ocr-provenance/python/gpu_utils.py:487-540 | a step after an error or a disabled step changes nothing; the exit code is 1 exactly when an error was reported |
| GpuUtils.Steps | ocr-provenance/python/gpu_utils.py:442-578 | the four actions in the order `main` runs them: gpu, vram, model, embedding test |
| GpuUtils.RunAll | ocr-provenance/python/gpu_utils.py:442-578 | the exit code is 1 exactly when an error is reported |
| GpuUtils.RunAllMeaning | ocr-provenance/python/gpu_utils.py:442-578 | running the actions succeeds exactly when every selected one does, listing the selected keys in order; otherwise it reports the error of the first selected action that fails, with the keys before it |
| GpuUtils.FirstFailureUnique | ocr-provenance/python/gpu_utils.py:442-578 | the first failing selected action is unique |
| GpuUtils.RunMain | ocr-provenance/python/gpu_utils.py:442-578 | exit code 1 exactly when an error is reported; success exactly when every selected action succeeds, with exactly the selected keys in order; otherwise the table's report of the first selected action that fails |
| GpuUtils.MainDefaultsToVerify | ocr-provenance/python/gpu_utils.py:480-490 | with no flags and torch present the command reports the GPU only and exits 0 |
| GpuUtils.MainMissingModelDir | ocr-provenance/python/gpu_utils.py:270-274 | a missing model directory ends `--verify-model` with EMBEDDING_MODEL_ERROR naming the path, exit code 1 |
| Embedding.ResolveAutoIsBestDevice | ocr-provenance/python/embedding_worker.py:154-163 | `auto` resolves to CUDA over MPS over CPU, the same choice as the diagnostics' best device |
| Embedding.ResolveCudaRequest | ocr-provenance/python/embedding_worker.py:166-170 | a `cuda…` request is kept when CUDA is present and otherwise becomes automatic selection (`mps` or `cpu`) |
| Embedding.ResolveMpsRequest | ocr-provenance/python/embedding_worker.py:173-177 | an `mps` request is kept when MPS is present and otherwise becomes automatic selection |
| Embedding.ResolveOtherRequest | ocr-provenance/python/embedding_worker.py:180 | any other request is passed through unchanged |
| Embedding.ResolvedDeviceIsUsable | ocr-provenance/python/embedding_worker.py:140-180 | a resolved device is never `auto` and never names an accelerator the host lacks |
| Embedding.ResolveIdempotent | ocr-provenance/python/embedding_worker.py:140-180 | resolving a resolved device changes nothing |
| Embedding.LoadCacheHit | ocr-provenance/python/embedding_worker.py:201-205 | a model cached for the resolved device is returned, cache unchanged, whatever the file system holds |
| Embedding.LoadChecksBeforeConstructing | ocr-provenance/python/embedding_worker.py:209-221 | on a miss the directory then the files are checked; either failure is a model error naming the directory, with the missing list, and the cache is unchanged |
| Embedding.LoadConstructorFailureKeepsCache | ocr-provenance/python/embedding_worker.py:223-244 | a failing constructor leaves the cache as it was and raises only EmbeddingModelError or GPUNotAvailableError |
| Embedding.LoadWrongDimensionStaysCached | ocr-provenance/python/embedding_worker.py:225-234 | a model of the wrong width is cached before the check, so the first load raises and the next load for that device returns it |
| Embedding.LoadSuccessIsCached | ocr-provenance/python/embedding_worker.py:223-237 | from a cache of 768-wide models, a successful load is 768 wide and becomes the cache entry for the resolved device |
| Embedding.Prefixed | ocr-provenance/python/embedding_worker.py:272 | one text per chunk, each the prefix followed by the chunk |
| Embedding.Rows | ocr-provenance/python/embedding_worker.py:275-284 | one row per text, as wide as the model |
| Embedding.EmbedChunksRows | ocr-provenance/python/embedding_worker.py:265-284 | no chunks touches nothing and gives no rows; a success has one row per chunk embedding `search_document: ` + chunk |
| Embedding.EmbedQueryRow | ocr-provenance/python/embedding_worker.py:298-312 | a query embedding is of `search_query: ` + query, 768 wide from a well-dimensioned cache |
| Embedding.RecoverOutcome | ocr-provenance/python/embedding_worker.py:336-359 | a success embeds every chunk with a batch size between 1 and the start that the halving reaches; a failure is the final OOM error or a non-OOM error passed through at once |
| Embedding.RecoverBelowMinimum | ocr-provenance/python/embedding_worker.py:339-359 | a start below 1 fails at once with the OOM error quoting the chunk count and the start |
| Embedding.RecoverNoChunks | ocr-provenance/python/embedding_worker.py:265-344 | no chunks with a usable size returns no rows and the starting size without loading |
| Embedding.RecoverHalvesTwice | ocr-provenance/python/embedding_worker.py:339-351 | OOM at 512 and 256 then success at 128 returns the rows with batch size 128 |
| Embedding.RecoverExhausts | ocr-provenance/python/embedding_worker.py:339-359 | when every attempt runs out of memory the loop ends with the OOM error quoting the chunk count and the starting size |
| Embedding.GenerateEmbeddingsRecord | ocr-provenance/python/embedding_worker.py:362-424 | the record names the resolved device; success exactly without error; on success count and rows match the chunks with the batch size that worked; on failure no rows, count 0, the requested batch size |
| Embedding.GenerateQueryEmbeddingRecord | ocr-provenance/python/embedding_worker.py:427-462 | a row exactly on success, an error text exactly on failure, the resolved device, the row embedding the prefixed query |
| Embedding.EmbeddingWorker.constructor | ocr-provenance/python/embedding_worker.py:131-132 | a fresh process has nothing cached |
| Embedding.EmbeddingWorker.LoadModel | ocr-provenance/python/embedding_worker.py:183-244 | new cache and result are those of the load step from the old cache |
| Embedding.EmbeddingWorker.EmbedChunks | ocr-provenance/python/embedding_worker.py:247-284 | new cache and rows are those of the chunk-embedding step |
| Embedding.EmbeddingWorker.EmbedQuery | ocr-provenance/python/embedding_worker.py:287-312 | new cache and row are those of the query step |
| Embedding.EmbeddingWorker.EmbedWithOomRecovery | ocr-provenance/python/embedding_worker.py:315-359 | the halving loop's cache and result are those of the backoff specification from the starting size |
| Embedding.EmbeddingWorker.GenerateEmbeddings | ocr-provenance/python/embedding_worker.py:362-424 | cache and record are those of the batch record step |
| Embedding.EmbeddingWorker.GenerateQueryEmbedding | ocr-provenance/python/embedding_worker.py:427-462 | cache and record are those of the query record step |
| OcrWorker.OcrError.Category | ocr-provenance/python/ocr_worker.py:53-59 | an OCR API error is `OCR_SERVER_ERROR` exactly when its status is at least 500 and `OCR_API_ERROR` exactly below 500 |
| OcrWorker.ExtensionSetsPartition | ocr-provenance/python/ocr_worker.py:166-206 | the text, office and Marker sets are pairwise disjoint and together are the supported set |
| OcrWorker.ValidateFile | ocr-provenance/python/ocr_worker.py:248-268 | succeeds exactly for an existing regular file whose lowered suffix is supported, returning the resolved path; every failure is a file error on the resolved path, "File not found" and "Not a file" checked first |
| OcrWorker.RouteCoversSupported | ocr-provenance/python/ocr_worker.py:485-499 | each branch is taken exactly for the extensions of its set, and "no handler" exactly for an unsupported one |
| OcrWorker.ValidatedFileHasHandler | ocr-provenance/python/ocr_worker.py:472-499 | a validated file never reaches the "No handler" error |
| OcrWorker.HexDigest | ocr-provenance/python/ocr_worker.py:276 | the hex digest has two lowercase hex characters per byte |
| OcrWorker.HexRoundTrip | ocr-provenance/python/ocr_worker.py:276 | parsing the hex digest back gives the digest's bytes |
| OcrWorker.ContentHash | ocr-provenance/python/ocr_worker.py:271-277 | the hash is `sha256:` followed by 64 lowercase hex characters |
| OcrWorker.ContentHashCarriesDigest | ocr-provenance/python/ocr_worker.py:271-277 | the digest can be read back from the hash, so two texts hash alike exactly when their digests agree |
| OcrWorker.DigitRun | ocr-provenance/python/ocr_worker.py:286 | `\d+` takes a maximal run of digits |
| OcrWorker.PageMarkerAt | ocr-provenance/python/ocr_worker.py:286 | a page marker match ends after its captured digits |
| OcrWorker.SeparatorAt | ocr-provenance/python/ocr_worker.py:286 | a page pattern match is at least the five separator characters, capturing digits only |
| OcrWorker.SplitWithoutSeparator | ocr-provenance/python/ocr_worker.py:287-290 | with no separator the split is the whole text in one piece |
| OcrWorker.SplitWithSeparator | ocr-provenance/python/ocr_worker.py:286-287 | a separator gives a split of at least three parts |
| OcrWorker.SplitPiecesFit | ocr-provenance/python/ocr_worker.py:286-287 | the pieces of a split add up to no more than the text |
| OcrWorker.OffsetsContiguous | ocr-provenance/python/ocr_worker.py:296-307 | the offsets tile the page text without gaps: each starts where the previous ended, from the starting offset to the end of all page text |
| OcrWorker.OffsetsMatchPieces | ocr-provenance/python/ocr_worker.py:296-307 | one range per text piece, the k-th exactly as long as the k-th piece |
| OcrWorker.OffsetsNumberPages | ocr-provenance/python/ocr_worker.py:294-307 | without page-number pieces the pages count up by one from the start |
| OcrWorker.PageNumberSetsNextPage | ocr-provenance/python/ocr_worker.py:300-302 | a page-number piece sets the number of the next page |
| OcrWorker.SinglePageWithoutSeparator | ocr-provenance/python/ocr_worker.py:289-290 | a text without separators is one page 1 from 0 to its length |
| OcrWorker.PageOffsetsWithinText | ocr-provenance/python/ocr_worker.py:280-311 | there is always a page, the first starts at 0, the ranges are contiguous and end within the text; for a split text with page text, one range per text piece, each as long as its piece |
| OcrWorker.ParsePageOffsets | ocr-provenance/python/ocr_worker.py:280-311 | the loop's offsets are the page offsets of the text |
| OcrWorker.MarkedPiecesOffsets | ocr-provenance/python/ocr_worker.py:296-307 | text, number, text, number, text gives three pages, each numbered by the marker before it |
| OcrWorker.MarkedPagesExample | ocr-provenance/python/ocr_worker.py:280-311 | three one-character pages split by marked separators: page 1 then the two marker numbers |
| OcrWorker.MarkedTextSplit | ocr-provenance/python/ocr_worker.py:286-287 | marked separators split into text pieces with the page numbers between them |
| OcrWorker.SeparatorsFrom | ocr-provenance/python/ocr_worker.py:520 | the separator matches are occurrences, in order and non-overlapping |
| OcrWorker.CutIndex | ocr-provenance/python/ocr_worker.py:518-525 | the cut lies within the text |
| OcrWorker.FindCut | ocr-provenance/python/ocr_worker.py:515-525 | the scan stops at the `max_pages`-th separator, or cuts nothing when there are fewer |
| OcrWorker.SeparatorsOfPrefix | ocr-provenance/python/ocr_worker.py:520-525 | cutting at a separator keeps exactly the separators before it |
| OcrWorker.TruncationKeepsRequestedPages | ocr-provenance/python/ocr_worker.py:515-526 | cutting to `k` pages when there are at least `k` separators leaves `k - 1` separators |
| OcrWorker.TruncationWithFewSeparators | ocr-provenance/python/ocr_worker.py:519-525 | with fewer separators than pages requested, nothing is cut |
| OcrWorker.FirstOf | ocr-provenance/python/ocr_worker.py:529-531 | `get(k1) or get(k2)` is the first key's value when truthy, else the second key's |
| OcrWorker.PageCount | ocr-provenance/python/ocr_worker.py:505-512 | the first truthy of `page_count`, `pages`, `num_pages`, else separators plus one; never 0 |
| OcrWorker.LStripDots | ocr-provenance/python/ocr_worker.py:420 | the result does not start with a dot |
| OcrWorker.ProcessTextFile | ocr-provenance/python/ocr_worker.py:411-421 | a read failure is a file error; csv text is fenced, other text kept; the metadata is the reader and the suffix |
| OcrWorker.TextFileFormat | ocr-provenance/python/ocr_worker.py:420 | the recorded format is the extension as written |
| OcrWorker.TextFilePageCount | ocr-provenance/python/ocr_worker.py:485-512 | a text file's page count is its separators plus one, overriding the branch's 1 |
| OcrWorker.Surface | ocr-provenance/python/ocr_worker.py:576-580 | OCR errors pass through; anything else becomes a 500 server error |
| OcrWorker.HandlerOutput | ocr-provenance/python/ocr_worker.py:485-499 | an unrouted extension is the "No handler" file error; the text reader yields no images |
| OcrWorker.AssembledRecord | ocr-provenance/python/ocr_worker.py:501-574 | the text is a prefix of the handler's markdown, with its length, hash and offsets; the page count is non-zero and within a positive `max_pages`; disabled images are absent; cost 0 |
| OcrWorker.AssembledTruncation | ocr-provenance/python/ocr_worker.py:515-526 | truncation keeps `max_pages - 1` separators and reports `max_pages` pages |
| OcrWorker.BuildResult | ocr-provenance/python/ocr_worker.py:501-574 | the page count, truncation, offsets and hash computed step by step give the assembled record |
| OcrWorker.ProcessDocument | ocr-provenance/python/ocr_worker.py:424-580 | a `file_url` is a 400 API error; validation errors pass through; otherwise the handler's error or the assembled record |
| ImageFiles.Tagged | ocr-provenance/python/docx_image_extractor.py:484 | a tagged number is its letter followed by the three-digit padding of the number |
| ImageFiles.TaggedLacks | ocr-provenance/python/docx_image_extractor.py:484 | a tagged number contains no character other than its letter and digits |
| ImageFiles.FileNameInjective | ocr-provenance/python/docx_image_extractor.py:484 | `p{page:03d}_i{index:03d}.{ext}` determines page, index and extension |
| ImageFiles.ImagePathInjective | ocr-provenance/python/docx_image_extractor.py:484-485 | images at different positions are saved under different paths in the output directory |
| ImageFiles.LowerAll | ocr-provenance/python/docx_image_extractor.py:378 | the lowered format list has the same length, each entry lowered |
| ImageFiles.Convert | ocr-provenance/python/docx_image_extractor.py:420-466 | native formats are not converted; only a metafile is skipped; an unconverted non-metafile keeps its format |
| ImageFiles.ConversionOrder | ocr-provenance/python/docx_image_extractor.py:422-457 | inkscape first for EMF/WMF, then ImageMagick, then Pillow; a metafile is never saved raw; other formats go straight to Pillow |
| DocxImages.ParseRelationships | ocr-provenance/python/docx_image_extractor.py:184-214 | a parsed relationships part gives the map built in order; a missing or malformed part gives {} |
| DocxImages.RelsMapKeys | ocr-provenance/python/docx_image_extractor.py:207-212 | an id is mapped exactly when some relationship with that id has both attributes |
| DocxImages.RelsMapLastWins | ocr-provenance/python/docx_image_extractor.py:211-212 | the last relationship with an id decides its target |
| DocxImages.MediaFileOf | ocr-provenance/python/docx_image_extractor.py:259 | the media file is the last `/`-component of the target, a suffix of it |
| DocxImages.ParseImagePositions | ocr-provenance/python/docx_image_extractor.py:217-267 | a parsed document gives the positions of all resolvable blips; a missing or malformed one gives [] |
| DocxImages.BlipPositionsSound | ocr-provenance/python/docx_image_extractor.py:253-265 | each position of a paragraph names that paragraph and a resolvable blip's media file |
| DocxImages.PositionsSound | ocr-provenance/python/docx_image_extractor.py:252-265 | every position comes from a resolvable blip of the paragraph it names |
| DocxImages.PositionsInOrder | ocr-provenance/python/docx_image_extractor.py:252-265 | positions follow paragraph order |
| DocxImages.ParagraphBlips | ocr-provenance/python/docx_image_extractor.py:254-265 | the inner loop over one paragraph's blips appends exactly the positions of its resolvable references, in order |
| DocxImages.MapMediaToParagraph | ocr-provenance/python/docx_image_extractor.py:356-361 | the lookup loop builds the first-reference map |
| DocxImages.FirstParagraphIsFirst | ocr-provenance/python/docx_image_extractor.py:358-361 | a media file maps to the paragraph of its first reference |
| DocxImages.FirstParagraphsKeys | ocr-provenance/python/docx_image_extractor.py:358-361 | exactly the referenced media files are mapped |
| DocxImages.EstimatePage | ocr-provenance/python/docx_image_extractor.py:270-272 | the page estimate is at least 1 |
| DocxImages.EstimatePageMonotone | ocr-provenance/python/docx_image_extractor.py:270-272 | the page estimate never decreases as paragraphs advance |
| DocxImages.EstimatePageBlock | ocr-provenance/python/docx_image_extractor.py:270-272 | each block of 40 paragraphs is one page, block `b` being page `b + 1` |
| DocxImages.PageOfMedia | ocr-provenance/python/docx_image_extractor.py:409-410 | an unreferenced media file is on page 1, a referenced one on its first paragraph's page |
| DocxImages.MediaEntries | ocr-provenance/python/docx_image_extractor.py:338-350 | the media entries are exactly the listed names under `word/media/` that are not directories |
| DocxImages.MediaExt | ocr-provenance/python/docx_image_extractor.py:375 | the extension holds no dot |
| DocxImages.StepGood | ocr-provenance/python/docx_image_extractor.py:370-515 | one iteration below the cap keeps the image invariant |
| DocxImages.StepOfGood | ocr-provenance/python/docx_image_extractor.py:370-515 | the loop's step, taken as a value, keeps the image invariant below the cap |
| DocxImages.ProcessFromGood | ocr-provenance/python/docx_image_extractor.py:370-515 | the whole loop keeps the image invariant |
| DocxImages.LoopBounds | ocr-provenance/python/docx_image_extractor.py:370-515 | the loop from an empty start keeps at most `max_images` images meeting `min_size` on pages of at least 1, with indices increasing per page and distinct paths |
| DocxImages.WriteFailureLeavesGap | ocr-provenance/python/docx_image_extractor.py:482-498 | a failed write adds no image but still consumes the page's next index |
| DocxImages.DistinctPaths | ocr-provenance/python/docx_image_extractor.py:484-485 | two images at different positions have different paths |
| DocxImages.Finish | ocr-provenance/python/docx_image_extractor.py:517-526 | a completed loop succeeds with the image count, and carries warnings exactly when problems were recorded: one text per problem, in order |
| DocxImages.ExtractionBounds | ocr-provenance/python/docx_image_extractor.py:275-526 | success exactly when a count is given; the count is the image number within `max_images`; each image meets `min_size` and is on a page of at least 1; indices increase per page; paths are distinct |
| DocxImages.KeepEntry | ocr-provenance/python/docx_image_extractor.py:403-515 | the loop body after the filters is the keep step of the specification |
| DocxImages.SaveEntry | ocr-provenance/python/docx_image_extractor.py:479-515 | indexing, writing and recording one image is the save step: the record holds the file name joined to the absolute output directory, a write failure quotes the joined pathlib path and the directory as given |
| DocxImages.ExtractImages | ocr-provenance/python/docx_image_extractor.py:275-526 | the result is that of the extraction specification for the archive |
| PdfImages.StepGood | ocr-provenance/python/image_extractor.py:208-337 | one image below the cap keeps the invariant and moves the position on |
| PdfImages.ImagesFromGood | ocr-provenance/python/image_extractor.py:208-337 | the inner loop keeps the invariant and ends before the next page |
| PdfImages.PagesFromGood | ocr-provenance/python/image_extractor.py:201-337 | a completed page loop keeps the invariant |
| PdfImages.Finish | ocr-provenance/python/image_extractor.py:340-349 | count and failed count are given; failure exactly when every attempted image failed; warnings exactly when problems were recorded: one text per problem, in order |
| PdfImages.ExtractionBounds | ocr-provenance/python/image_extractor.py:169-357 | count is given exactly with a failed count, equals the image number within `max_images`; images meet `min_size`, come in increasing (page, index) order with distinct paths; failures left warnings |
| PdfImages.ListingErrorAborts | ocr-provenance/python/image_extractor.py:206-357 | a page listing error discards everything with "Extraction failed" |
| PdfImages.CapStopsPages | ocr-provenance/python/image_extractor.py:201-210 | once the cap is reached later pages are never listed |
| PdfImages.ExtractOne | ocr-provenance/python/image_extractor.py:211-337 | the body of the inner loop is the image step of the specification |
| PdfImages.SaveOne | ocr-provenance/python/image_extractor.py:258-332 | converting, writing and recording one image is the place step, recording the file name joined to the absolute output directory |
| PdfImages.ExtractImages | ocr-provenance/python/image_extractor.py:169-357 | the result is that of the extraction specification for the document |
| Clustering.ValidateInputs | ocr-provenance/python/clustering_worker.py:28-84 | each check fails exactly when all earlier ones passed and its own condition fails: missing embeddings, not an array, not 2-D, fewer than 2 rows; success gives N, the requested algorithm (`hdbscan` when absent), the request's ids, the defaulted parameters and an N×N matrix when one is given; when every check passes the validation succeeds |
| Clustering.LaterChecksInOrder | ocr-provenance/python/clustering_worker.py:53-82 | a wrong-length id list wins over an unknown algorithm, which wins over a bad matrix shape; an empty id list is accepted |
| Clustering.Isqrt | ocr-provenance/python/clustering_worker.py:202 | the root is the largest whose square does not exceed N |
| Clustering.DefaultK | ocr-provenance/python/clustering_worker.py:200-202 | the default k is at least 2 |
| Clustering.DefaultKIsRoot | ocr-provenance/python/clustering_worker.py:200-202 | the default k is the integer square root from N = 4 on, 2 below that, and at most N - 1 from N = 3 on |
| Clustering.IsqrtRange | ocr-provenance/python/clustering_worker.py:202 | the root is 0 at 0, 1 from 1 to 3, and between 2 and N - 2 from 4 on |
| Clustering.Ones | ocr-provenance/python/clustering_worker.py:172-222 | one probability of 1.0 per label |
| Clustering.Cluster | ocr-provenance/python/clustering_worker.py:121-345 | agglomerative's import error comes first, then `ward` linkage is rejected with the ValueError; non-HDBSCAN algorithms give one 1.0 per label; k-means without k uses the default k |
| Clustering.NoiseIndices | ocr-provenance/python/clustering_worker.py:349-350 | the noise indices are exactly the positions labelled -1, in increasing order |
| Clustering.NoiseCountIsIndices | ocr-provenance/python/clustering_worker.py:349-351 | the noise count equals the number of noise indices |
| Clustering.InsertUnique | ocr-provenance/python/clustering_worker.py:238 | inserting keeps the list strictly increasing and adds exactly the element |
| Clustering.SortedUnique | ocr-provenance/python/clustering_worker.py:238-269 | `sorted(set(labels))` is strictly increasing with exactly the labels as members |
| Clustering.DropNoise | ocr-provenance/python/clustering_worker.py:242-274 | dropping noise keeps exactly the non-noise members, still increasing |
| Clustering.ClusterIds | ocr-provenance/python/clustering_worker.py:238-243 | the visited labels are increasing and are exactly the non-noise labels |
| Clustering.ClusterIdsCount | ocr-provenance/python/clustering_worker.py:238-356 | the loops visit exactly `n_clusters` labels |
| Clustering.LabelsSplit | ocr-provenance/python/clustering_worker.py:354-356 | the distinct labels are the clusters plus noise when present |
| Clustering.ComputeCentroids | ocr-provenance/python/clustering_worker.py:227-253 | one centroid per cluster label, in ascending label order |
| Clustering.ComputeCoherenceScores | ocr-provenance/python/clustering_worker.py:256-291 | one score per cluster label in ascending order, 1.0 for a single member, else the average similarity |
| Clustering.SingleMemberCoherent | ocr-provenance/python/clustering_worker.py:280-283 | a single-member cluster scores 1.0 |
| Clustering.Kept | ocr-provenance/python/clustering_worker.py:302-305 | the kept labels are exactly the non-negative ones |
| Clustering.SilhouetteGuard | ocr-provenance/python/clustering_worker.py:294-313 | the two-samples guard is implied by the two-clusters guard; past it, the silhouette raises the label-count ValueError exactly when every kept point has its own label |
| Clustering.DistinctIffCard | ocr-provenance/python/clustering_worker.py:307-310 | a label list has at most as many distinct labels as entries, and as many exactly when none repeats |
| Clustering.TwoSingletonsFailSilhouette | ocr-provenance/python/clustering_worker.py:179-313 | two documents put by default k-means into two clusters end as the label-count ValueError |
| Clustering.AllNoise | ocr-provenance/python/clustering_worker.py:294-356 | when everything is noise there are no clusters, every index is noise and the silhouette is 0.0 without error |
| Clustering.RunClusteringCounts | ocr-provenance/python/clustering_worker.py:316-375 | a run has one centroid and one score per cluster, the noise count equals the noise indices, and non-HDBSCAN probabilities are all 1.0 |
| Clustering.RunMain | ocr-provenance/python/clustering_worker.py:378-430 | blank input is a ValueError, bad JSON a JSONDecodeError; otherwise success exactly when the run succeeds, printing the run's own result, and a failed run is printed by handler: a ValueError with its message, an ImportError as "Missing dependency: …. Requires scikit-learn >= 1.3 and numpy.", any other error with its message under its own type name |
| Clustering.InvalidRequestIsValueError | ocr-provenance/python/clustering_worker.py:388-410 | every invalid request ends as a ValueError with the validation message |
| ImageOptimizer.Ratio | ocr-provenance/python/image_optimizer.py:246 | the aspect ratio of a non-empty image is at least 1 |
| ImageOptimizer.AspectOfRatio | ocr-provenance/python/image_optimizer.py:155-164 | the aspect score of a ratio lies between 0.1 and 1.0 |
| ImageOptimizer.AspectScore | ocr-provenance/python/image_optimizer.py:141-164 | an empty image scores 0.0; any other between 0.1 and 1.0 |
| ImageOptimizer.AspectSymmetric | ocr-provenance/python/image_optimizer.py:141-164 | the aspect score does not depend on orientation |
| ImageOptimizer.AspectNonIncreasing | ocr-provenance/python/image_optimizer.py:155-164 | the aspect score never rises as the ratio grows |
| ImageOptimizer.AspectPiecesMeet | ocr-provenance/python/image_optimizer.py:155-164 | the pieces meet at ratios 2 and 3.5, and from 7.5 on the score is the floor 0.1 |
| ImageOptimizer.SizeOfPixels | ocr-provenance/python/image_optimizer.py:167-185 | the size score is one of the five steps 0.0, 0.2, 0.4, 0.7, 1.0 |
| ImageOptimizer.SizeScore | ocr-provenance/python/image_optimizer.py:167-185 | the size score lies in [0, 1] |
| ImageOptimizer.SizeNonDecreasing | ocr-provenance/python/image_optimizer.py:167-185 | more pixels never score lower |
| ImageOptimizer.Category.Bonus | ocr-provenance/python/image_optimizer.py:256-264 | each category's weight lies between 0.1 and 1.0 |
| ImageOptimizer.CategoryRules | ocr-provenance/python/image_optimizer.py:188-229 | ICON exactly for tiny or few-colour small images, LOGO exactly for the next rule, DECORATIVE exactly for an extreme ratio after those; CHART and DOCUMENT only for 48 to 255 colours, CHART only below ratio 2; UNKNOWN only for few colours on a large image |
| ImageOptimizer.ManyColoursArePhotos | ocr-provenance/python/image_optimizer.py:200-227 | at least 256 colours, 64 pixels and a ratio of at most 6 make a photo |
| ImageOptimizer.RelevanceBounds | ocr-provenance/python/image_optimizer.py:255-271 | with a diversity in [0, 1] the relevance lies between 0.02 and 1.0 |
| ImageOptimizer.Decide | ocr-provenance/python/image_optimizer.py:274-289 | an image is sent exactly when it is at least 50 pixels, neither icon nor decoration, not a logo below 0.4, and at least 0.35 relevant |
| ImageOptimizer.AnalyzeImage | ocr-provenance/python/image_optimizer.py:232-303 | the image is sent exactly when there is no skip reason, and the category is the predicted one |
| ImageOptimizer.SmallImagesSkipped | ocr-provenance/python/image_optimizer.py:200-281 | nothing under 64 pixels is sent: under 50 it is too small, from 50 to 63 an icon |
| ImageOptimizer.SentImagesRelevant | ocr-provenance/python/image_optimizer.py:274-289 | a sent image is at least 0.35 relevant (0.4 for a logo), neither icon nor decoration, and at least 64 pixels |
| ImageOptimizer.ResizeForVlm | ocr-provenance/python/image_optimizer.py:306-371 | skipped exactly below `skip_below`; unchanged exactly up to `max_dimension`; the division by zero only for an empty image with a negative bound |
| ImageOptimizer.ResizeFits | ocr-provenance/python/image_optimizer.py:353-358 | a successful resize to a non-negative bound makes the longer side exactly the bound, keeps both sides at least 1 and never enlarges a side |
| ImageOptimizer.ThinImageFails | ocr-provenance/python/image_optimizer.py:353-358 | with a positive bound below the longer side, the resize fails exactly when the shorter side times the bound is less than the longer side |
| ImageOptimizer.ThinImageExample | ocr-provenance/python/image_optimizer.py:353-358 | a 3000x1 image with the defaults scales to 2048x0, which the resize rejects |
| ImageOptimizer.ScaledFits | ocr-provenance/python/image_optimizer.py:353-355 | scaling both sides by bound over longest side keeps each side within itself and makes the longer one exactly the bound |
| ImageOptimizer.ScaleSide | ocr-provenance/python/image_optimizer.py:353-355 | one scaled side stays within itself and the bound, and the longest becomes the bound |
| Reranker.CacheHit | ocr-provenance/python/reranker_worker.py:47-49 | a model cached under the requested name is returned and the cache is unchanged |
| Reranker.CacheAfterCall | ocr-provenance/python/reranker_worker.py:31-55 | a successful call leaves the returned model cached under the name; a failed call changes nothing; success exactly when the library is installed and the model is cached or constructs |
| Reranker.RerankerCache.constructor | ocr-provenance/python/reranker_worker.py:27-28 | a fresh process has nothing cached |
| Reranker.RerankerCache.GetModel | ocr-provenance/python/reranker_worker.py:31-55 | new cache and result are those of the cache step from the old cache |
| Reranker.RerankerCache.Rerank | ocr-provenance/python/reranker_worker.py:58-80 | new cache and ranked list are those of the rerank step |
| Reranker.Pairs | ocr-provenance/python/reranker_worker.py:63 | pairs exist exactly when every passage has a text (else the `'text'` KeyError); pair i is the query with the first 500 characters of passage i |
| Reranker.BuiltMeaning | ocr-provenance/python/reranker_worker.py:69-77 | the loop's list is complete exactly when every zipped passage has an index (else the `'index'` KeyError); entry i holds passage i's index, score i and its original score, 0 by default |
| Reranker.BuildResults | ocr-provenance/python/reranker_worker.py:69-77 | the loop over `zip(passages, scores)` stops at the shorter and gives the built list |
| Reranker.Insert | ocr-provenance/python/reranker_worker.py:79 | inserting adds exactly the element |
| Reranker.SortByRelevance | ocr-provenance/python/reranker_worker.py:79 | the sort is a permutation |
| Reranker.InsertDescending | ocr-provenance/python/reranker_worker.py:79 | inserting into a descending list keeps it descending |
| Reranker.SortedDescending | ocr-provenance/python/reranker_worker.py:79 | the sorted list is in descending relevance |
| Reranker.WithRelevance | ocr-provenance/python/reranker_worker.py:79 | the filter keeps exactly the entries of one relevance |
| Reranker.InsertKeepsTies | ocr-provenance/python/reranker_worker.py:79 | insertion puts an element before the others of equal relevance |
| Reranker.SortIsStable | ocr-provenance/python/reranker_worker.py:79 | entries of equal relevance keep their input order |
| Reranker.RerankResult | ocr-provenance/python/reranker_worker.py:58-80 | a ranking has one entry per zipped passage, is a permutation of the built list, descending and stable |
| Reranker.RunMain | ocr-provenance/python/reranker_worker.py:83-98 | a parse error, a missing `query` or `passages` key is printed as the error; empty passages print []; without the library the install message is printed; otherwise what a rerank on a fresh (empty) model cache returns is printed: its ranked records, or its failure's message |
| Reranker.EmptyPassagesSkipModel | ocr-provenance/python/reranker_worker.py:89-91 | empty passages print [] whatever the library and model would do |
| Datalab.ServerErrorIff | ocr-provenance/python/file_manager_worker.py:51-54 | an API error is `…_SERVER_ERROR` exactly at status 500 or above and `…_API_ERROR` exactly below |
| Datalab.ApiKey | ocr-provenance/python/file_manager_worker.py:176-185 | (the same check as `get_api_key` of the form filler) the key is accepted exactly when present, non-empty and not the placeholder; every refusal is a ValueError, the placeholder message exactly for the placeholder |
| Datalab.CheckExists | ocr-provenance/python/file_manager_worker.py:227-237 | (both workers) no error exactly for a regular file; a missing or non-regular path is a file error on the resolved path |
| Datalab.FileHash | ocr-provenance/python/file_manager_worker.py:189-198 | the file hash is `sha256:` followed by the hex digest |
| FileManager.Get | ocr-provenance/python/file_manager_worker.py:440 | a key is found exactly when some entry has it, and the value found is that entry's |
| FileManager.Keys | ocr-provenance/python/file_manager_worker.py:443 | the keys of a dict, in order |
| FileManager.GetAppend | ocr-provenance/python/file_manager_worker.py:278-284 | adding an entry changes a lookup only for a key that was absent |
| FileManager.HandleSdkException | ocr-provenance/python/file_manager_worker.py:132-165 | file errors, and only they, become file errors, on the context path when given; validation is 400, timeout 504, anything unexpected 500 |
| FileManager.ApiErrorStatus | ocr-provenance/python/file_manager_worker.py:150-161 | an API error is 429 exactly when rate limited, 404 exactly for a not-found that is not rate limited nor 401/403, and otherwise keeps its status (500 when it has none) |
| FileManager.HandledCategory | ocr-provenance/python/file_manager_worker.py:51-165 | a handled error is a server error exactly when it is an API error of status 500 or above; a file error is a file error |
| FileManager.GetClient | ocr-provenance/python/file_manager_worker.py:168-186 | a client is made exactly when the key is accepted, else the key's error |
| FileManager.ContentType | ocr-provenance/python/file_manager_worker.py:201-224 | a known lowered suffix gives its table entry; octet-stream exactly for an unknown one |
| FileManager.FallbackMeaning | ocr-provenance/python/file_manager_worker.py:271-286 | the fallback dict holds a known attribute exactly when it is not None, with `file_id` stringified |
| FileManager.SerializeFallback | ocr-provenance/python/file_manager_worker.py:271-286 | the loop over the known attributes builds the fallback dict |
| FileManager.StringifyFileId | ocr-provenance/python/file_manager_worker.py:262-266 | stringifying keeps the keys and changes only the `file_id` value |
| FileManager.StringifyGet | ocr-provenance/python/file_manager_worker.py:262-266 | a lookup after stringifying is the stored form of the lookup before |
| FileManager.SerializeFileMetadata | ocr-provenance/python/file_manager_worker.py:243-286 | the serialised metadata is that of the serialisation rules: dict, dataclass, then attributes |
| FileManager.SerializedFileId | ocr-provenance/python/file_manager_worker.py:243-286 | a dict is returned as it is; otherwise a serialised `file_id` is a string; an attribute object yields exactly its known non-None attributes |
| FileManager.ValidateFile | ocr-provenance/python/file_manager_worker.py:227-240 | succeeds exactly for a regular file, with the resolved path; failures are file errors on it |
| FileManager.UploadFile | ocr-provenance/python/file_manager_worker.py:294-351 | file checks come first, then the key; an SDK error is handled as an `upload` error on the resolved path; a success has the SDK's id as a non-empty string and its reference, status complete, the file's name, content type, hash and size |
| FileManager.UploadEmptyId | ocr-provenance/python/file_manager_worker.py:334-335 | an upload fails exactly when the SDK's id is empty, with a 500 error |
| FileManager.SerializeAll | ocr-provenance/python/file_manager_worker.py:375-376 | the list serialises exactly when every element does, element by element |
| FileManager.ListFiles | ocr-provenance/python/file_manager_worker.py:354-379 | a key error comes first; an SDK error is handled as a `list_files` error, a serialisation error propagates; a listing holds the serialised files and the SDK's total, else the number of files |
| FileManager.GetFile | ocr-provenance/python/file_manager_worker.py:382-409 | a key error comes first; an SDK error is handled as a `get_file_metadata` error; the info carries the id as a string, the name, size, content type, reference and status, and the creation time as a string exactly when one is set |
| FileManager.GetDownloadUrl | ocr-provenance/python/file_manager_worker.py:412-451 | a URL is returned only for an expiry from 60 to 86400, only when the SDK gave a truthy `download_url`, with the SDK's `file_id` or the requested one; within bounds a key error comes next, and an SDK error is handled as a `get_download_url` error |
| FileManager.ExpiryCheckedFirst | ocr-provenance/python/file_manager_worker.py:428-431 | an out-of-range expiry is a 400 error whatever the key and the SDK |
| FileManager.DownloadUrlResponse | ocr-provenance/python/file_manager_worker.py:440-450 | a missing or empty URL is a 500 error; without `file_id` the requested id is returned |
| FileManager.DeleteFile | ocr-provenance/python/file_manager_worker.py:454-478 | a key error comes first; an SDK error is handled as a `delete_file` error; a delete fails with 500 exactly when `success` is falsy, and is true otherwise |
| FormFill.ValidateFile | ocr-provenance/python/form_fill_worker.py:111-131 | succeeds exactly for a regular file whose lowered suffix is supported, returning the resolved path; every failure names it |
| FormFill.MaxPolls | ocr-provenance/python/form_fill_worker.py:213 | at least 30 polls, enough to cover the timeout at 3 seconds each, and no more than fit in it unless 30 |
| FormFill.IfSet | ocr-provenance/python/form_fill_worker.py:202-210 | an option is passed on exactly when set and non-empty |
| FormFill.CostCents | ocr-provenance/python/form_fill_worker.py:252-255 | the cost is `final_cost_cents` when set, otherwise `total_cost_cents` |
| FormFill.RecordOutcome | ocr-provenance/python/form_fill_worker.py:229-278 | anything but success true is a failed record with nothing filled, every field not found and a non-empty error; a complete record has no error and the cost |
| FormFill.MapException | ocr-provenance/python/form_fill_worker.py:280-295 | timeouts, and only they, get an explicit category; file errors, and only they, are file errors on the path |
| FormFill.ExceptionCategories | ocr-provenance/python/form_fill_worker.py:280-295 | an API error keeps its status (500 when absent); a timeout is `FORM_FILL_TIMEOUT`; a validation error is a 400 API error; anything unexpected a server error |
| FormFill.FillForm | ocr-provenance/python/form_fill_worker.py:146-295 | file errors come first (missing, not a file, unsupported suffix) unchanged, then the key's error unchanged; a client or fill error is mapped on the resolved path; a success is the record of the result id, the resolved path, its hash, the fields and the fill response |
| FormFill.RequestSent | ocr-provenance/python/form_fill_worker.py:202-221 | the request carries the polling budget and only the non-empty options |

## Left out

- Embedding numerics: vector values, L2 normalisation, float32 casts and similarity are not modelled. A row is represented by the text it embeds and its width of 768.
- Telemetry: clock and peak-VRAM readings are inputs of the embedding records; the OCR timestamps and duration, the rounding of times and GiB figures, and logging are left out.
- Generated identifiers: the uuid ids of OCR results, form fill results and request ids are inputs.
- SHA-256: the digest is an abstract function of the text. `compute_file_hash` in the two Datalab workers reads the file in chunks; that loop is left out and only the `sha256:` framing of a given hex digest is modelled.
- Libraries and subprocesses are oracles, each a parameter that gives a value or an error:
  - torch and sentence-transformers, including the model constructor;
  - Marker and its model cache (`get_marker_models`, `run_marker_on_file`) and LibreOffice (`convert_office_to_pdf`);
  - Inkscape, ImageMagick, Pillow decoding and conversion, and `get_color_diversity`;
  - PyMuPDF, zipfile and ElementTree;
  - scikit-learn fitting, centroid, cosine-similarity and silhouette values (the label-count check of `silhouette_score` is modelled);
  - the cross-encoder's predictions;
  - every Datalab SDK call.
- File system: `Path.resolve()`, existence checks, file reads and writes are inputs (the resolved path and its status); creating the output directory is left out. The image extractors take the output directory as given, as pathlib's string of it and as its absolute form: the working directory and pathlib's normalisation are inputs.
- Command-line plumbing: argparse, `.env` loading, JSON parsing and printing, and exit codes are left out of every `main`. The exceptions are the GPU diagnostics' error table, the clustering entry point and the reranker entry block, which are modelled over an already-parsed input.
- Concurrency: the caches are used by one thread; no locking is modelled.
- Strings: `lower`/`upper` are ASCII-only; there is no Unicode case folding and no UTF-8 encoding or `errors="replace"` decoding.
- OcrWorker.DigitRun: a digit is an ASCII digit. Python's `\d` on text also matches other decimal digits such as "٣", so a page marker written with them is not recognised by the model.
- OcrWorker.PageNumberSetsNextPage: `isdigit()` and `int()` are ASCII here. A piece of non-ASCII decimal digits ("٣") sets the page number in the source but is page content in the model, and a piece such as "²" passes `isdigit()` and then makes `int()` raise a ValueError, which the model does not raise.
- OcrWorker.ParsePageOffsets: inherits the ASCII-only digits of the two lines above, including the `int()` error on "²".
- Reals: scores are exact reals, not IEEE doubles. The rounding of probabilities, coherence and silhouette to 6 places, of the reranker's scores by `float`, and of the resize `scale_factor` to 4 places is not modelled.
- Clustering.DefaultK: `int(np.sqrt(N))` is modelled as the exact integer square root; a floating-point square root can differ from it only for very large N.
- Clustering: `embeddings` that NumPy cannot convert are one error kind carrying the library message.
- Clustering: the `KMeans` and `HDBSCAN` imports fail as part of their algorithm's oracle, and the agglomerative import is its own outcome checked before the `ward` guard. The later imports of `cosine_similarity` and `silhouette_score` come from the same package and are assumed to succeed.
- ImageOptimizer.AnalyzeImage: the skip reasons are a datatype; only the "Too small" message is spelled out, because the others print reals with `:.2f`.
- ImageOptimizer.ResizeForVlm: each new side is the exact quotient of side times `max_dimension` by the longer side, truncated toward zero. The source multiplies by a float ratio instead, whose rounding can give one less where the exact quotient is whole.
- ImageOptimizer: opening and saving images in `analyze_image` and `resize_for_vlm`, and their `main`, are left out; `resize_for_vlm` is modelled on dimensions only.
- DocxImages: bounding-box sizes are modelled as reals of the integer dimensions.
- Datalab SDK errors: a `status_code` attribute that is present but None is treated as absent (status 500). In the source such an error reaches `status_code >= 500` in the API-error constructor (file_manager_worker.py:52 from :161, form_fill_worker.py:46 from :282), which raises a `TypeError` that `main` reports under the default `FILE_MANAGER_API_ERROR` or `FORM_FILL_API_ERROR` category. The "500 when absent" of FileManager.ApiErrorStatus and FormFill.ExceptionCategories covers only a missing attribute. The `ImportError` of a missing `datalab_sdk` package is not modelled.
- FormFill: the values of `field_data` are not modelled, only its keys in order. The SDK's `success` attribute is `Some(b)` for a boolean and None for anything else.
- OCR: the parameters the local worker ignores (`mode`, `timeout`, `page_range`, `skip_cache`, `extras`, `page_schema`, `additional_config`) and the rate-limit error class, which nothing raises, are not modelled.
- Reranker: the cross-encoder's `max_length=512` argument is part of the constructor oracle.
- Clustering.ValidateInputs: a JSON null is read as an absent key. In the source `data.get` returns None for a key that is present with null (clustering_worker.py:53-70): `"algorithm": null` fails with "Unknown algorithm 'None'…", and a null `min_cluster_size`, `distance_threshold` or `linkage` reaches scikit-learn as None, whereas the model uses the defaults 3, 1.0 and "average". A null `document_ids` skips the length check in both.
- Clustering.RunMain: blank input is ASCII whitespace only. Python's `str.strip()` (clustering_worker.py:382) also strips Unicode whitespace such as U+00A0 and U+2028, so input made only of those is "Empty input on stdin" in the source but goes on to JSON parsing in the model.
- Reranker.RunMain: a JSON null is read as an absent key. `"passages": null` passes `input_data["passages"]` and then prints `[]` by the `if not passages` test (reranker_worker.py:87-91), and `"query": null` reaches the cross-encoder as None; the model prints the `KeyError` for both. Likewise a passage's null `text` raises a `TypeError` on slicing (:63) where the model prints the `'text'` KeyError.
- Reranker.BuiltMeaning: a passage's null `original_score` is echoed as null by `passage.get("original_score", 0)` (reranker_worker.py:75), and a null `index` is echoed as null (:73); the model gives 0 for the first and the `'index'` KeyError for the second.
- FileManager.UploadFile: `processing_duration_ms` (file_manager_worker.py:339-350) is a clock reading and is not a field of the model's `UploadResult`.
- FormFill.RecordOutcome: `processing_duration_ms` (form_fill_worker.py:224-225, 243, 277) is a clock reading and is not a field of the model's `FormFillResult`.
