# TomoTherapy archive to DICOM exporter: a Dafny model

This project models the extraction-and-assembly core of an exporter that turns a
TomoTherapy patient archive into DICOM objects. The archive is an XML index plus
flat binary files. The output objects are a CT image series, an RT Dose volume,
an RT Structure Set and an RT Plan. The model covers these modules:

- `FindPlan` (`find_plan.py`): the `PlanFinder`. It lists the patient plans of
  the archive. It also filters the approved ones, applying the approval
  sentinel, an optional delivery type and the `PATIENT` plan type. It picks the
  first plan and lists the approved legacy plans.
- `LoadImage` (`load_image.py`): the `ImageLoader` class. Its `image`
  dictionary is filled by `parse_xml` and `load_binary_data`. The plan-node
  scan keeps the header of the first reference image of each matching plan
  node, and the last such node wins. The uint16 binary is reshaped in
  column-major order and rescaled.
- `LoadPlan` (`load_plan.py`): the `PlanLoader` class. It covers patient
  demographics and plan validation. It loads the fluence and machine-agnostic
  sinograms; each is built from fragments of 64-leaf rows joined with
  `np.hstack`. It ends with the consistency check.
- `LoadPlanDose` (`load_plan_dose.py`): the `LoadPlanDose` class. It first
  looks for a final dose whose parent is the plan. It then falls back to the
  dose volumes of the plan's trials. Otherwise it raises the "not found" error,
  which lists what it scanned. The dose binary is reshaped in C order.
- `LoadStructure` (`load_structure.py`): the `StructureLoader` class. It
  parses curve files and rasterises contour loops into a boolean mask. It
  computes the volume of a mask and loads every ROI of the image's structure
  set.
- `WriteDicomImage`, `WriteDicomDose`, `WriteDicomStructure` and
  `WriteDicomTomoPlan` (the four `write_dicom_*.py` files): the datasets the
  writers build. This includes the pixel transforms, the dose scaling to
  uint16, the ROI and contour sequences, the plan blocks, the defaults and the
  order of the UID calls.
- `Common` and `Text`: shared vocabulary and the string functions the code
  relies on. These are `findtext`, `split`, `strip`, `lower` and `:03d`
  formatting, plus volumes, minimum and maximum.

How the model represents the system:

- The loaders hold their dictionaries as records in class fields. Their
  methods change those fields and are proved against specification functions.
  These functions are the fold of each loop and the whole of each operation.
- Arrays the source updates in place are Dafny arrays:
  - `image_data["data"] += 1024`;
  - the mask written slice by slice;
  - the dose record's samples after `nan_to_num`.
- The inputs of each operation are pre-parsed records:
  - XML arrives as records whose text fields are `Option<string>`. `None`
    means no element; `Some("")` means an element without text.
  - Binary files arrive as maps from file name to samples.
  - Float and integer parsing, `np.round` and the `:.1f` formatting arrive as
    function parameters.
  - `pydicom.uid.generate_uid` is a function from the index of the call to the
    UID it returns.
  - The platform's path rules (`posixpath` or `ntpath`) are a parameter of the
    dose writer, which decides whether `os.path.dirname` of the output path is
    empty.
- Exceptions are `Err` results or `Fail` outcomes, carrying the `Error` named
  after the exception the source raises.

## Behaviour of the code worth noting

- Sinogram fragments are joined with `np.hstack` (load_plan.py:49-50). 2-D
  fragments with equal row counts are placed side by side; fragments with
  different row counts raise.
- The dose binary is reshaped in C order, `reshape(dims)`
  (load_plan_dose.py:147).
- A binary whose sample count differs from the header's product, short or
  long, raises ValueError in the reshape (load_plan_dose.py:147,
  load_image.py:144).
- The dose "not found" error lists the image types and database parents it
  checked (load_plan_dose.py:92-97).
- `generate_mask` sets the pixel of each rounded vertex
  (load_structure.py:131-136).
- Each loop replaces its whole slice, so the last loop on a slice wins
  (load_structure.py:138).
- The slice index is `int(...)`, which truncates toward zero
  (load_structure.py:123).
- A pixel index outside the grid raises IndexError; a negative one in range
  wraps round from the end, as numpy indexing does (load_structure.py:136-138).

## Model

| member | source | states |
|---|---|---|
| Common.FindTextOr | load_plan.py:16-19 | `findtext` with a default gives the default for a missing element and the text otherwise |
| Common.NodeText | find_plan.py:55-63 | the `.text` of a found element is None exactly when the element has no text |
| Common.ExtractText | load_image.py:24-36 | `extract_text` is the text of the first node, None when there is no node or it has no text |
| Common.MinSample | write_dicom_image.py:28 | `np.min` of a non-empty volume is attained by a sample and bounds every sample from below |
| Common.MaxSample | write_dicom_dose.py:79-80 | `np.max` of a non-empty volume is attained by a sample and bounds every sample from above |
| Text.Split | load_structure.py:41-42 | `split` never yields the separator inside a piece and yields at least one piece |
| Text.JoinSplit | load_structure.py:41-42 | joining the pieces of `split` with the separator gives back the text |
| Text.SplitCount | load_structure.py:41-42 | `split` yields one piece more than there are separators |
| Text.StripLeft | load_structure.py:39-41 | left strip drops a prefix of stripped characters and the result does not start with one |
| Text.StripRight | load_structure.py:39-41 | right strip drops a suffix of stripped characters and the result does not end with one |
| Text.StripIsInfix | load_structure.py:39-41 | `strip` keeps a contiguous middle part and drops only stripped characters around it |
| Text.LowerAscii | find_plan.py:177 | `lower` keeps the length and lower-cases each ASCII letter in place; no other character lower-cases to a letter of "approved", so comparing with that word agrees with Python's Unicode `lower` |
| Text.LowerEqualsIff | find_plan.py:177 | lower-casing gives a lower-case word exactly when each character is that word's letter in either case |
| Text.Decimal | write_dicom_image.py:94 | the decimal form of a number has at least one character, all of them digits |
| Text.ZeroPad3 | write_dicom_image.py:94 | `:03d` gives at least three characters, all of them digits |
| Text.ZeroPad3Injective | write_dicom_image.py:94 | distinct numbers format to distinct strings |
| Text.ZeroPad3Value | write_dicom_image.py:94 | the formatted digits read back as the number |
| FindPlan.OpenArchive | find_plan.py:10-26 | the finder raises FileNotFoundError exactly when the archive XML is absent |
| FindPlan.EmptyApprovalPassesAsWritten | find_plan.py:55-64 | an `approvedPlanTrialUID` element without text passes the approval test as written but not the rule (finding A) |
| FindPlan.ApprovalTestsAgree | find_plan.py:122-124 | apart from an element without text, the test as written and the approval rule agree |
| FindPlan.LabelOf | find_plan.py:100 | a missing label gives "UNK"; a label with text gives that text |
| FindPlan.FindAllPlans | find_plan.py:28-105 | the loop returns the qualifying patient plans in document order, each with its approval flag by the corrected approval rule of finding A (`AllPlans`, not `AllPlansAsWritten`) |
| FindPlan.FindPlans | find_plan.py:107-144 | the loop returns the qualifying patient plans approved by the corrected rule of finding A, in document order (`ApprovedPlans`, not `ApprovedPlansAsWritten`) |
| FindPlan.PlanListsAgree | find_plan.py:55-64 | when no plan has an approval element without text, `find_all_plans` and `find_plans` as written give the same lists as under the corrected approval rule |
| FindPlan.EmptyApprovalListed | find_plan.py:120-141 | as written, a qualifying plan with an approval element without text is listed as approved; under the corrected rule it is not (finding A) |
| FindPlan.ApprovedPlansMembers | find_plan.py:120-141 | a summary is returned exactly when some plan is approved and qualifies; returned UIDs are never empty |
| FindPlan.ApprovedPlansAppend | find_plan.py:120-141 | results follow document order: two parts of the plan list give the two parts of the result |
| FindPlan.ApprovedPlansFromAll | find_plan.py:28-144 | `find_plans` equals `find_all_plans` restricted to approved entries with the flag dropped |
| FindPlan.DeliveryTypeIgnoredWithoutFilter | find_plan.py:67-76 | without a delivery type, archives differing only in delivery types give the same plans |
| FindPlan.DeliveryTypeFilter | find_plan.py:126-129 | with a delivery type, every returned plan has exactly that delivery type |
| FindPlan.HandleFindPlansResults | find_plan.py:146-163 | None exactly for no plans, otherwise the first plan's UID |
| FindPlan.LegacyStatusCaseInsensitive | find_plan.py:176-177 | the legacy test is a case-insensitive match of "approved" |
| FindPlan.LegacyUidsMembers | find_plan.py:175-180 | a UID is listed exactly when a legacy plan with it is approved |
| FindPlan.FindLegacyPlans | find_plan.py:165-186 | raises ValueError exactly when no legacy plan is approved, otherwise the non-empty approved UIDs in order |
| LoadImage.FirstReference | load_image.py:92-128 | the image whose `break` ends the scan is the first reference image, and none before it is one |
| LoadImage.PositionOf | load_image.py:73-74 | a missing position gives "Unknown"; a position with text gives that text |
| LoadImage.ScanErrorPersists | load_image.py:62-128 | once the plan-node scan has raised, later plan nodes do not matter |
| LoadImage.MatchingNodes | load_image.py:62-66 | the plan nodes of the requested plan are exactly those whose UID matches |
| LoadImage.ScanOnlyMatching | load_image.py:62-66 | plan nodes of other plans never affect the scan |
| LoadImage.ScanHeaderProvenance | load_image.py:92-128 | a header written by the scan is that of the first reference image of a matching plan node |
| LoadImage.LastMatchingPlanWins | load_image.py:62-128 | the last matching plan node with a reference image decides the header |
| LoadImage.ReshapeF | load_image.py:142-144 | column-major reshape: sample `(i, j, k)` is raw sample `i + nx*(j + ny*k)` |
| LoadImage.ReshapeFCovers | load_image.py:142-144 | every raw sample lands at the index its column-major position gives |
| LoadImage.RescaleInverse | load_image.py:147-150 | with a non-zero slope, rescaling is invertible sample by sample |
| LoadImage.LoadBinaryShape | load_image.py:134-152 | a successful load gives a volume of the header's shape holding the rescaled column-major samples |
| LoadImage.ImageLoader.constructor | load_image.py:8-22 | a fresh loader holds only the CT class UID: every entry of the record, the window entries included, is unset |
| LoadImage.ImageLoader.ParseXml | load_image.py:38-132 | `parse_xml` raises exactly as the parse specification does and otherwise leaves its record |
| LoadImage.ImageLoader.LoadBinaryData | load_image.py:134-152 | `load_binary_data` stores the specified volume or raises, leaving the record unchanged |
| LoadImage.ImageLoader.Load | load_image.py:154-162 | `load_image` is the parse followed by the binary load, with the first error raised |
| LoadImage.ParsedHasHeader | load_image.py:99-132 | after a successful parse the binary file name is known, exists and has a header |
| LoadImage.ParsedWindow | load_image.py:58-59 | after a successful parse the window centre and width are set, to the archive's values or to 0 and 1000 |
| LoadImage.ScanKeepsWindow | load_image.py:62-128 | the plan-node scan leaves the window entries as they were |
| LoadImage.ScanKeepsWellFormed | load_image.py:99-126 | the scan writes a file name only together with a header |
| LoadPlan.ExtractSinogram | load_plan.py:52-64 | a readable file gives whole rows of 64 samples in order; an unreadable one gives an empty array |
| LoadPlan.ExtractSinogramKeepsPrefix | load_plan.py:57-61 | the rows read back as the file's samples up to the last whole row; fewer than 64 are dropped |
| LoadPlan.JoinRow | load_plan.py:49-50 | a joined row is as wide as all fragments together |
| LoadPlan.HStack | load_plan.py:49-50 | `np.hstack` succeeds exactly for all 1-D fragments or 2-D fragments with equal row counts, giving the total width |
| LoadPlan.JoinRowPlacesPart | load_plan.py:49-50 | column `c` of fragment `m` sits at the widths of earlier fragments plus `c` |
| LoadPlan.HStackSideBySide | load_plan.py:49-50 | fragments are placed side by side in list order |
| LoadPlan.HStackSingle | load_plan.py:49-50 | joining one fragment gives it back |
| LoadPlan.FirstSelected | load_plan.py:38-47 | the delivery plan whose `break` ends the lookup is the first selected one |
| LoadPlan.FluenceLookupTakesUidless | load_plan.py:39-40 | `fluence_uid` is never written, so the fluence lookup takes the first delivery plan without a UID |
| LoadPlan.Existing | load_plan.py:42-45 | the listed files that exist, in list order |
| LoadPlan.FragmentsOfExisting | load_plan.py:41-46 | the fragment loop raises exactly for an element without text, else gives one fragment per existing file in order |
| LoadPlan.LaterPlansIgnored | load_plan.py:38-47 | delivery plans after the selected one never matter |
| LoadPlan.FirstPlan | load_plan.py:23-30 | the plan whose details are taken is the first with the requested UID |
| LoadPlan.ConsistencyWarning | load_plan.py:85-92 | a warning exactly when both sinograms exist with different shapes |
| LoadPlan.LoadPlanOutcome | load_plan.py:94-119 | a fresh load succeeds only for a listed plan UID and then holds the two looked-up sinograms |
| LoadPlan.PlanLoader.constructor | load_plan.py:6-10 | a fresh loader has an empty dictionary |
| LoadPlan.PlanLoader.ParsePatientDemographics | load_plan.py:12-19 | the four patient entries are set, with "Unknown" defaults, only when the patient element exists |
| LoadPlan.PlanLoader.ValidatePlanUid | load_plan.py:21-31 | returns True exactly when a plan has the UID and then stores the first such plan's details |
| LoadPlan.PlanLoader.LoadFluenceDeliveryPlan | load_plan.py:33-50 | stores the joined fluence fragments when there are any, or raises leaving the dictionary |
| LoadPlan.PlanLoader.LoadMachineAgnosticPlan | load_plan.py:66-83 | stores the joined fragments of the first `Machine_Agnostic` plan when there are any, or raises |
| LoadPlan.PlanLoader.Load | load_plan.py:94-119 | `load_plan` runs the five steps in order, raising the first error |
| LoadPlan.FragmentsErrorPersists | load_plan.py:41-46 | once the fragment loop has raised, later file names do not matter |
| LoadPlanDose.ReshapeC | load_plan_dose.py:145-147 | C-order reshape: sample `(i, j, k)` is raw sample `(i*ny + j)*nz + k` |
| LoadPlanDose.ReshapeCCovers | load_plan_dose.py:145-147 | every raw sample lands at the index its row-major position gives |
| LoadPlanDose.FirstDirect | load_plan_dose.py:37-73 | the image record that ends the scan is the first final dose of the plan |
| LoadPlanDose.ImageTypes | load_plan_dose.py:37-45 | the checked image types are those of every image record, in order |
| LoadPlanDose.ImageParents | load_plan_dose.py:37-45 | the checked parents are those of every image record, in order |
| LoadPlanDose.SearchErrorPersists | load_plan_dose.py:107-136 | once a trial search has raised, later dose volumes do not matter |
| LoadPlanDose.SearchTrialLastMatch | load_plan_dose.py:107-136 | a trial search leaves the record unchanged without a match, else holds the last matching volume |
| LoadPlanDose.SearchTrialNonEmpty | load_plan_dose.py:88 | the dictionary is non-empty after a search exactly when it was before or a volume matched |
| LoadPlanDose.TrialStageProvenance | load_plan_dose.py:77-89 | a dose found through trials is a final dose whose parent is a trial of the plan |
| LoadPlanDose.DoseProvenance | load_plan_dose.py:12-97 | every dose returned is a final dose of the plan itself or of one of its trials |
| LoadPlanDose.TrialStageNotFound | load_plan_dose.py:77-97 | the trial stage ends in "not found" exactly when no trial of the plan has a final dose |
| LoadPlanDose.SearchErrorIsLoadError | load_plan_dose.py:99-136 | a failed trial search failed while loading a matching volume |
| LoadPlanDose.DoseNotFoundIff | load_plan_dose.py:37-97 | `load_dose` raises "not found" with every image type and parent exactly when neither stage finds a dose |
| LoadPlanDose.DoseLoader.constructor | load_plan_dose.py:6-10 | a fresh loader has an empty dose dictionary |
| LoadPlanDose.DoseLoader.LoadBinaryData | load_plan_dose.py:138-147 | `_load_binary_data` stores the C-order volume or raises, leaving the record |
| LoadPlanDose.DoseLoader.LoadNode | load_plan_dose.py:48-73 | a matching record's header entries followed by its binary |
| LoadPlanDose.DoseLoader.SearchTrialDose | load_plan_dose.py:99-136 | `_search_trial_dose` loads every final dose of the trial in turn |
| LoadPlanDose.DoseLoader.LoadDose | load_plan_dose.py:12-97 | `load_dose`: direct lookup, trial fallback, then the "not found" error |
| LoadPlanDose.DoseLoader.ScanImages | load_plan_dose.py:37-48 | the image loop finds the first direct match and records every type and parent when there is none |
| LoadPlanDose.DoseLoader.TrialFallback | load_plan_dose.py:77-89 | the trial loop stops at the first trial of the plan that leaves a dose |
| LoadStructure.ParseLine | load_structure.py:41 | a point line parses exactly when every field does, giving one coordinate per field |
| LoadStructure.ParseFields | load_structure.py:41 | the coordinates of a line are the parsed fields, in order |
| LoadStructure.NonEmptyLines | load_structure.py:42 | the non-empty lines, in order |
| LoadStructure.ParseLinesPointwise | load_structure.py:40-43 | each non-empty line gives exactly one point, in order |
| LoadStructure.OneLoopPerCountedElement | load_structure.py:34-46 | with no exception, one loop per element with a positive count, in order |
| LoadStructure.CurveFailurePersists | load_structure.py:27-49 | once an element raises, the whole parse fails |
| LoadStructure.ParseCurveFile | load_structure.py:17-49 | `parse_curve_file` returns the loops of the elements, or [] when any step raises |
| LoadStructure.Trunc | load_structure.py:123 | `int` truncates toward zero |
| LoadStructure.Wrap | load_structure.py:136-138 | numpy reads an in-range index as itself and a negative one from the end |
| LoadStructure.SliceOf | load_structure.py:124-136 | the slice mask of a loop has the shape of an image slice |
| LoadStructure.WriteSlice | load_structure.py:138 | `mask[:, :, k] = s` replaces slice `k` and leaves every other slice |
| LoadStructure.Zeros | load_structure.py:119 | a fresh mask has no voxel set |
| LoadStructure.MaskFold | load_structure.py:121-138 | the mask loop keeps the grid's shape |
| LoadStructure.MaskErrorPersists | load_structure.py:121-138 | once a loop raises, later loops do not matter |
| LoadStructure.MaskRaisesIff | load_structure.py:123-138 | `generate_mask` raises exactly when some loop cannot be drawn |
| LoadStructure.LastOnSlice | load_structure.py:121-138 | the loop that decides a slice is the last one written to it |
| LoadStructure.MaskContents | load_structure.py:108-140 | each slice holds the vertex pixels of the last loop on it, or nothing |
| LoadStructure.MaskNotEmpty | load_structure.py:108-140 | a mask drawn from a loop has the first vertex of the last loop set |
| LoadStructure.DrawSlice | load_structure.py:124-136 | the slice array holds exactly the loop's slice mask |
| LoadStructure.VoxelVolume | load_structure.py:152 | the product of non-negative widths is non-negative, of positive widths positive |
| LoadStructure.CalculateVolume | load_structure.py:142-153 | an empty mask has volume 0, and for non-negative widths the volume is never negative |
| LoadStructure.VolumeWithinGrid | load_structure.py:142-153 | a mask's volume lies between 0 and the volume of the whole grid |
| LoadStructure.CountWithinGrid | load_structure.py:153 | a mask has no more set voxels than the grid has voxels |
| LoadStructure.VolumeZeroIff | load_structure.py:142-153 | with positive widths, the volume is 0 exactly when no voxel is set |
| LoadStructure.StructureOf | load_structure.py:75-102 | a structure has a mask exactly when it has points; its volume is that of its mask, else 0 |
| LoadStructure.StructureVolumePositive | load_structure.py:99-102 | a structure with points has a positive volume on a grid of positive widths |
| LoadStructure.KeptRois | load_structure.py:68-72 | the ROIs whose parent is the image's structure set, in document order |
| LoadStructure.StructuresOfKeptRois | load_structure.py:67-104 | one structure per kept ROI, in document order |
| LoadStructure.StructuresErrorPersists | load_structure.py:67-104 | once an ROI raises, later ROIs do not matter |
| LoadStructure.StructureLoader.constructor | load_structure.py:11-15 | a fresh loader has no structures |
| LoadStructure.StructureLoader.GenerateMask | load_structure.py:108-140 | `generate_mask` computes the specified mask or raises |
| LoadStructure.StructureLoader.CopySlice | load_structure.py:138 | the slice assignment writes slice `k` and nothing else |
| LoadStructure.StructureLoader.LoadRoi | load_structure.py:75-102 | the ROI body builds the specified structure |
| LoadStructure.StructureLoader.LoadStructures | load_structure.py:51-106 | appends one structure per kept ROI, or raises for a missing archive or a failing ROI |
| WriteDicomImage.Plane | write_dicom_image.py:85 | `data[:, :, k]` is the nx-by-ny plane of slice `k` |
| WriteDicomImage.Rot90 | write_dicom_image.py:85 | a quarter turn counter-clockwise swaps the dimensions |
| WriteDicomImage.Rot90k | write_dicom_image.py:85 | `k` quarter turns give the turned dimensions |
| WriteDicomImage.Flip1 | write_dicom_image.py:85 | `np.flip(a, 1)` reverses every row |
| WriteDicomImage.Transpose | write_dicom_image.py:85 | the transpose swaps rows and columns |
| WriteDicomImage.FlipRot270IsTranspose | write_dicom_image.py:85 | three quarter turns then a horizontal flip is the transpose |
| WriteDicomImage.PixelData | write_dicom_image.py:85 | the pixel matrix of a slice is ny-by-nx |
| WriteDicomImage.PixelDataTransposes | write_dicom_image.py:85 | pixel row `y`, column `x` of slice `k` is sample `(x, y, k)` |
| WriteDicomImage.Adjusted | write_dicom_image.py:28-30 | adds 1024 to every sample when the minimum is negative, else nothing changes |
| WriteDicomImage.AdjustNegative | write_dicom_image.py:28-30 | the in-place adjustment leaves the adjusted volume |
| WriteDicomImage.AdjustedPointwise | write_dicom_image.py:28-30 | a volume agreeing with the adjustment sample by sample is the adjusted volume |
| WriteDicomImage.SliceFileNamesDistinct | write_dicom_image.py:94 | distinct slices are written to distinct files |
| WriteDicomImage.RowsAsWrittenMismatch | write_dicom_image.py:65 | as written, a 2-by-3 plane declares 2 rows but its pixel data has 3 (finding B) |
| WriteDicomImage.SeriesSplitAsWritten | write_dicom_image.py:55-57 | as written, two slices get different study, series and frame UIDs (finding C) |
| WriteDicomImage.SeriesAsWrittenRelation | write_dicom_image.py:44-96 | the series the loop writes differs from the corrected series only in swapped Rows and Columns and in its UIDs, and its first slice draws the same series UIDs |
| WriteDicomImage.SeriesSharesUids | write_dicom_image.py:53-61 | every slice of the series shares one study, series and frame UID |
| WriteDicomImage.SeriesSopUidsDistinct | write_dicom_image.py:60-61 | with a non-repeating generator, slices have distinct SOP instance UIDs |
| WriteDicomImage.SliceLayout | write_dicom_image.py:62-86 | slice `i` has number `i + 1`, position `(sx, sy, sz + i * wz) * 10`, thickness `wz * 10`, pixel spacing `[wx * 10, wy * 10]`, and Rows and Columns matching its pixels |
| WriteDicomImage.WriteImageSpec | write_dicom_image.py:8-98 | raises MissingImageFields exactly for missing start, width or data, and EmptyArray exactly for an empty volume otherwise (`np.min`); otherwise one slice and one UID per z index, built as the corrected `Series` of findings B and C, not `SeriesAsWritten` |
| WriteDicomImage.WriteDicomImage | write_dicom_image.py:8-98 | `write_dicom_image` returns the specified (corrected, findings B and C) series and UIDs and adjusts the caller's array only when it proceeds |
| WriteDicomImage.WriteSlices | write_dicom_image.py:44-96 | the slice loop builds the corrected series of findings B and C (`Series`, not `SeriesAsWritten`) and collects its SOP instance UIDs in order |
| WriteDicomDose.Sanitized | write_dicom_dose.py:76 | `nan_to_num` keeps finite samples and makes NaN and infinities 0 |
| WriteDicomDose.SanitizedVolume | write_dicom_dose.py:76 | after `nan_to_num` every sample is finite and equals its sanitised value |
| WriteDicomDose.Sanitize | write_dicom_dose.py:76 | the sanitisation leaves the sanitised volume |
| WriteDicomDose.Values | write_dicom_dose.py:76-79 | the sanitised samples as reals |
| WriteDicomDose.GridScaling | write_dicom_dose.py:80 | `DoseGridScaling` is positive: maximum over 65535 for a positive maximum, else 1 |
| WriteDicomDose.Clip | write_dicom_dose.py:83 | clipping lands in [0, 65535] and keeps values already inside |
| WriteDicomDose.Stored | write_dicom_dose.py:83-84 | a stored value lies in [0, 65535] |
| WriteDicomDose.StoredVolume | write_dicom_dose.py:83-84 | every voxel stores the stored value of its sample |
| WriteDicomDose.StoredBrackets | write_dicom_dose.py:83-84 | an in-range sample is stored as its whole number of scaling units |
| WriteDicomDose.NegativeStoresZero | write_dicom_dose.py:83-84 | a negative sample is stored as 0 |
| WriteDicomDose.MaxStoresTop | write_dicom_dose.py:79-84 | with the scaling of a positive maximum, the maximum is stored as 65535 |
| WriteDicomDose.StoredVolumeHitsTop | write_dicom_dose.py:79-84 | with a positive maximum, some voxel stores 65535 |
| WriteDicomDose.FrameOffsets | write_dicom_dose.py:70 | one offset per frame, frame `k` at `-k * width_z * 10` |
| WriteDicomDose.FrameOffsetsSpacing | write_dicom_dose.py:70 | the first frame is at 0 and consecutive frames are `width_z * 10` apart |
| WriteDicomDose.DoseHeaderDefaults | write_dicom_dose.py:28-56 | without image data the patient fields and descriptions take their defaults and the UIDs are generated in order; with it, each present key is copied and each absent key takes its default; SOP instance and series UIDs differ |
| WriteDicomDose.NoDirectoryWindowsStricter | write_dicom_dose.py:87 | a path naming no directory under Windows rules names none under POSIX rules either |
| WriteDicomDose.DrivePathNamesDirectory | write_dicom_dose.py:87 | a drive-prefixed backslash path such as `Z:\\out\\RTDose.dcm` names a directory under Windows rules and none under POSIX rules |
| WriteDicomDose.WriteDoseSpec | write_dicom_dose.py:14-91 | raises for an empty volume exactly when it is empty, and otherwise for a missing directory exactly when the output path names no directory under the platform's path rules |
| WriteDicomDose.DosePixels | write_dicom_dose.py:76-84 | each voxel stores its sanitised sample scaled and clipped |
| WriteDicomDose.DoseMaxStored | write_dicom_dose.py:79-84 | with a positive maximum some voxel of the written dose stores 65535 |
| WriteDicomDose.WriteDicomDose | write_dicom_dose.py:14-91 | `write_dicom_dose` gives the specified dataset, under the given platform path rules, and leaves the record's samples sanitised |
| WriteDicomStructure.DisplayColor | write_dicom_structure.py:87-94 | the display colour is red, green and blue, in that order |
| WriteDicomStructure.FlattenPointsLength | write_dicom_structure.py:102-110 | a loop of `w`-coordinate points flattens to `w` values per point |
| WriteDicomStructure.FlattenPointsAt | write_dicom_structure.py:102-110 | coordinate `c` of point `k` sits at `k * w + c` |
| WriteDicomStructure.ContourOf | write_dicom_structure.py:102-110 | a contour item is closed planar with one point per loop vertex |
| WriteDicomStructure.ContourSequence | write_dicom_structure.py:102-110 | the contour sequence is built exactly when no loop is ragged |
| WriteDicomStructure.ContourSequenceLayout | write_dicom_structure.py:102-110 | one contour per loop, in order, its data the loop's coordinates three per point |
| WriteDicomStructure.RoiContourOf | write_dicom_structure.py:87-110 | an ROI contour item is built exactly for a valid colour and non-ragged loops, numbered `i + 1` |
| WriteDicomStructure.RoiContoursOk | write_dicom_structure.py:71-119 | the items are built exactly when every structure's item is, item `i` being structure `i`'s |
| WriteDicomStructure.RoiContoursFirstError | write_dicom_structure.py:71-119 | a failure is the error of the first failing structure |
| WriteDicomStructure.StructureSetSpec | write_dicom_structure.py:7-131 | the file is written exactly when every item is built, with the structure set SOP class and UID call 0 |
| WriteDicomStructure.StructureSetRaises | write_dicom_structure.py:87-110 | raises exactly for a bad colour or ragged loop, and the colour error of the first bad structure |
| WriteDicomStructure.OneItemPerStructure | write_dicom_structure.py:71-119 | one ROI, contour and observation item per structure, in order, numbered from 1 |
| WriteDicomStructure.SingleFrameOfReference | write_dicom_structure.py:60-77 | every ROI refers to the single frame of reference of the set |
| WriteDicomStructure.StructureHeaderDefaults | write_dicom_structure.py:31-57 | without a header the patient fields and descriptions take their defaults and UIDs are calls 1 to 3 |
| WriteDicomStructure.BuildContourSequence | write_dicom_structure.py:102-110 | the inner loop builds the contour sequence |
| WriteDicomStructure.RoiContourItem | write_dicom_structure.py:87-110 | one ROI contour item: colour check, then contours |
| WriteDicomStructure.RoiSequences | write_dicom_structure.py:71-119 | the ROI loop builds the three sequences item by item |
| WriteDicomStructure.WriteDicomStructures | write_dicom_structure.py:7-131 | `write_dicom_structures` builds the specified structure set or raises |
| WriteDicomTomoPlan.PlanOptionalBlocks | write_dicom_tomo_plan.py:61-125 | each optional block appears exactly when its keys are present, with the documented contents |
| WriteDicomTomoPlan.ControlPointDefaults | write_dicom_tomo_plan.py:95-108 | one control point per entry, numbered from 0, with the fixed energy, jaws and defaults |
| WriteDicomTomoPlan.PlanHeaderDefaults | write_dicom_tomo_plan.py:26-58 | the fixed header fields, the defaults for absent keys, and distinct UIDs from a non-repeating generator |
| WriteDicomTomoPlan.BuildControlPoints | write_dicom_tomo_plan.py:95-108 | the control-point loop builds one item per entry, in order |
| WriteDicomTomoPlan.WriteDicomTomoPlan | write_dicom_tomo_plan.py:8-137 | `write_dicom_tomo_plan` builds the specified plan |

## Left out

- FindAllPlans: applies the corrected approval rule of finding A (`AllPlans`);
  the code as written is `AllPlansAsWritten`, and `PlanListsAgree` gives when
  the two agree.
- FindPlans: applies the corrected approval rule of finding A
  (`ApprovedPlans`); the code as written is `ApprovedPlansAsWritten`, and
  `PlanListsAgree` gives when the two agree.
- WriteImageSpec: builds the corrected `Series` of findings B and C; the
  code as written builds `SeriesAsWritten`, related to it by
  `SeriesAsWrittenRelation`.
- WriteDicomImage: returns the corrected series of findings B and C, as
  `WriteImageSpec` does, not `SeriesAsWritten`.
- WriteSlices: builds the corrected series of findings B and C (one set of
  series UIDs, Rows = ny, Columns = nx), not `SeriesAsWritten`.
- ImageNode and DoseNode: the nine header values (dimensions, start, width)
  are assumed present and parseable. The IndexError of the image loader
  (load_image.py:105-121) and the TypeError of `int(None)` in the dose loader
  (load_plan_dose.py:56-68) for a missing header element are not modelled.
  Dimensions are natural numbers: a negative parsed dimension, including the
  `-1` that numpy's `reshape` would infer, is not modelled.
- LoadBinarySpec (dose): an empty binary file name joins to the archive
  directory itself, which exists, so the source raises IsADirectoryError from
  `open` (load_plan_dose.py:142-145); the model reports BinaryNotFound("").
- XML parsing (ElementTree and lxml), `int(...)` and `float(...)` conversion of
  element text: the archive arrives as pre-parsed records. Float parsing of curve
  points and `np.round` are function parameters.
- File I/O: existence checks are membership in the map of files. `np.fromfile`
  of a partial trailing item, `save_as`, `dcmwrite` and the byte layout of
  `tobytes` are not modelled. The `os.makedirs` call appears only as the error
  for a path naming no directory under the given platform path rules.
- Floating point: samples are reals. The float32 and float64 rounding of the
  sums, products and rescaling is not modelled.
- The uint16 wrap of `astype(np.uint16)` on CT pixel data is not modelled.
  Pixel values are kept as reals.
- `datetime.now()` (instance creation date and time) and the `:.1f` formatting
  of the prescription are not modelled. The formatting is a function parameter.
- `pydicom.uid.generate_uid` is a function of the index of its call. UIDs are
  not proved unique beyond what that function gives.
- NaN in sinograms is not modelled: sinogram samples are reals.
- `None` values stored under present keys of the writers' input dictionaries
  are not modelled. A key is present with a value or absent.
- The contents of a dictionary after an exception midway through an update are
  not modelled. On failure the model reports the error, and the loaders'
  methods say only that outcome.
- The `KeyError` from reading an absent key of a writer's input dictionary is
  not modelled. Absence is modelled only where the source uses `.get` or `in`.
- `np.nan_to_num` rebinds `dose_data["data"]` to a new array. The model
  overwrites the record's array in place, so an outside alias of the old array
  is not distinguished.
- Ragged contours: on numpy versions that build object arrays instead of
  raising, the writer would go on. The model follows the raising behaviour.
- The colour components of an ROI are the parsed integers or 0.
  `ValueError` from `int(...)` on non-numeric colour text is not modelled.
- `plot_image_slice`, `print` and logging are not modelled.
- `converter.py`, `tomo_extract.py`, `initialize.py` and `testing.py`
  (command-line and path glue) are not part of this model.

## Findings

The rows are findings A, B and C, in that order.

| source | as written | input that shows it | evidently intended | confidence | as-written member | corrected member |
|---|---|---|---|---|---|---|
| find_plan.py:55-64 | `approved_uid.text not in ["", SENTINEL]`; ElementTree gives `text` None for an element without text, so the test passes | a plan with an empty `<approvedPlanTrialUID/>` element | an empty approval reference means "not approved" | not executed | FindPlan.EmptyApprovalPassesAsWritten | FindPlan.ApprovedPlansMembers |
| write_dicom_image.py:65 | `Rows, Columns = data.shape[:2]` gives (nx, ny), but the pixel matrix after rot90 and flip is ny-by-nx | a volume of shape (2, 3, 1): Rows 2, while the pixel data has 3 rows | Rows = ny and Columns = nx, the shape of the transposed slice | not executed | WriteDicomImage.RowsAsWrittenMismatch | WriteDicomImage.SliceLayout |
| write_dicom_image.py:55-57 | the default `generate_uid()` of each `.get` is evaluated inside the slice loop, once per slice | metadata without study, series and frame UIDs and a volume with two slices | one study, series and frame-of-reference UID shared by all slices | not executed | WriteDicomImage.SeriesSplitAsWritten | WriteDicomImage.SeriesSharesUids |
