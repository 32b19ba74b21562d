# nii2dicom: tag merge and intensity normalization

This project models the two pieces of nii2dicom that hold its logic:

- **Tag merge** (`correct_dicomtags.py`). The tool stamps a newly stacked 3D DICOM file with a donor file's identity.
  - It copies 13 allow-listed patient, study and acquisition tags from the donor DICOM dataset. A tag the donor lacks becomes `""`.
  - It adds four tags that the pipeline computes: SeriesDescription (the series label), ImageComments (a "not approved for clinical use" marker), AccessionNumber (`"1"`) and SeriesNumber.
  - It then sets all 17 entries on the target dataset in ascending key order and logs each one as it is set.
- **Intensity normalization** (`normalize_nifti.py`). The tool finds the minimum and maximum voxel values of a NIfTI volume. It copies the voxels, multiplies the copy by `a = 65534 / (max - min)` and adds `b = 32767 - a * max`. The result is stored as int16, with the input's affine and header.

Modules:

- `StringOrder` (string_order.dfy): the order Python's `sorted` gives `str` keys. This is code-point lexicographic order, in which a prefix sorts first. The module proves that order is a strict total order. It also implements `sorted` over a set of keys as a selection sort.
- `DicomTags` (correct_dicomtags.dfy):
  - the allow-list and the constants;
  - a `DicomDataset` class whose `tags` map is updated in place, as `setattr` does;
  - the copy loop (`BuildUpdate`) and the apply loop (`ApplyTags`, `SetInOrder`);
  - `MergedTags` and `Corrected`, the functions that specify them, with lemmas on completeness, precedence, key count, independence from non-allow-listed donor tags, and idempotence.
- `NormalizeNifti` (normalize_nifti.dfy):
  - `minmax_nifti` as functions over the voxel sequence;
  - the coefficients;
  - the copy-then-scale-then-offset steps as methods over arrays;
  - lemmas: the endpoints map to ±32767, the map is strictly increasing, every output lies in [-32767, 32767], the midpoint maps to 0, and the extrema of the output are exactly -32767 and 32767.

## Model

| member | source | states |
|---|---|---|
| StringOrder.StrLess | correct_dicomtags.py:81 | Python's `<` on `str`, which `sorted` uses: the first differing code point decides, and a proper prefix always sorts before the longer string |
| StringOrder.StrLessIrreflexive | correct_dicomtags.py:81 | no key sorts before itself |
| StringOrder.StrLessTransitive | correct_dicomtags.py:81 | the string order used by `sorted` is transitive |
| StringOrder.StrLessTotal | correct_dicomtags.py:81 | any two different keys are ordered one way or the other, so `sorted` has a unique answer |
| StringOrder.MinKey | correct_dicomtags.py:81 | returns a member of a non-empty key set that sorts before every other member |
| StringOrder.SortedKeys | correct_dicomtags.py:81 | `sorted(keys)`: strictly ascending, contains exactly the given keys, each once (length equals the set's size) |
| DicomTags.DicomDataset.Set | correct_dicomtags.py:83 | `setattr` adds or replaces exactly one tag and leaves every other tag as it was |
| DicomTags.DicomDataset.Get | correct_dicomtags.py:70 | `getattr(dataset, tag)` yields a value exactly when the dataset holds the tag, and then it is the stored value; otherwise the read fails |
| DicomTags.DonorValue | correct_dicomtags.py:69-72 | the value the copy loop stores for one tag: the donor's value when the donor holds the tag, `""` when reading it fails |
| DicomTags.CopiedTags | correct_dicomtags.py:67-72 | after the copy loop the dictionary has exactly the 13 allow-listed tags as keys, each holding its `DonorValue` |
| DicomTags.MergedTags | correct_dicomtags.py:67-79 | the complete update has exactly the 13 allow-listed tags plus the 4 computed ones as keys; each allow-listed tag holds the donor's value, or `""` when the donor lacks it; SeriesDescription, ImageComments, AccessionNumber and SeriesNumber are the label, `"*** NOT APPROVED FOR CLINICAL USE ***"`, `"1"` and the series number whatever the donor holds |
| DicomTags.BuildUpdate | correct_dicomtags.py:67-79 | the copy loop over the allow-list, in any iteration order, followed by the four assignments, yields exactly `MergedTags` of the donor's tags |
| DicomTags.MergedTagCount | correct_dicomtags.py:67-79 | the update always holds 17 tags |
| DicomTags.AllowListSize | correct_dicomtags.py:12-29 | the allow-list names 13 distinct tags |
| DicomTags.OverrideTagsApart | correct_dicomtags.py:75-79 | none of the four computed tags is on the allow-list |
| DicomTags.InstitutionNameFromDonor | correct_dicomtags.py:67-79 | InstitutionName ends up equal to the `INSTITUTION_NAME` constant only when the donor holds that very value; the override is not applied |
| DicomTags.MergeDependsOnlyOnAllowList | correct_dicomtags.py:67-72 | two donors that agree on the allow-listed tags give the same update, so donor tags outside the allow-list never reach the output |
| DicomTags.SetInOrder | correct_dicomtags.py:81-84 | setting the update's entries one key at a time leaves the target equal to its old tags overridden by the update; the log is each key with its value, in the given order |
| DicomTags.LogOf | correct_dicomtags.py:84 | the printed lines while `keys` are set: one (tag, value) line per key |
| DicomTags.LogOfEntries | correct_dicomtags.py:84 | the j-th printed line names the j-th key set and the value it is set to |
| DicomTags.ApplyTags | correct_dicomtags.py:81-84 | after the apply loop the target maps every update key to its update value and keeps every other tag; the log has one entry per update key, in strictly ascending key order, each carrying that key's value |
| DicomTags.CorrectDicomTags | correct_dicomtags.py:57-87 | the target's new tags are `Corrected` of its old tags and the donor's tags; the log lists the 17 merged tags in ascending order with their merged values |
| DicomTags.Corrected | correct_dicomtags.py:81-83 | the corrected dataset has the target's keys plus the 17 update keys; each of the 17 update keys holds its `MergedTags` value, so donor and computed values win over what the target held; every target tag outside the update keeps its value |
| DicomTags.CorrectedIdempotent | correct_dicomtags.py:67-83 | correcting an already corrected dataset with the same donor, label and series number changes nothing |
| NormalizeNifti.SeqMax | normalize_nifti.py:20 | `np.max`: bounds every voxel from above and is the value of some voxel |
| NormalizeNifti.SeqMin | normalize_nifti.py:21 | `np.min`: bounds every voxel from below and is the value of some voxel |
| NormalizeNifti.MinMaxNifti | normalize_nifti.py:19-22 | returns (min, max) with min <= every voxel <= max, both attained |
| NormalizeNifti.Scale | normalize_nifti.py:27 | for max > min the scale is positive and stretches max - min to exactly 65534 |
| NormalizeNifti.Offset | normalize_nifti.py:28 | `b = 32767 - a * max`: together with `a`, it sends the maximum to 32767 and the minimum to -32767 |
| NormalizeNifti.Rescale | normalize_nifti.py:30-31 | one voxel after `*= a` and `+= b`: its distance above -32767 is its distance above the minimum, stretched by `a` |
| NormalizeNifti.AffineMap | normalize_nifti.py:29-31 | the copied voxels multiplied by `a` and shifted by `b`, element by element, same length |
| NormalizeNifti.Normalized | normalize_nifti.py:26-31 | the voxels `normalize_nifti` writes: one per input voxel, each the input voxel rescaled against the volume's own minimum and maximum |
| NormalizeNifti.RescaleEndpoints | normalize_nifti.py:27-28 | with `a` and `b` as computed, the maximum maps to 32767 and the minimum to -32767 |
| NormalizeNifti.RescaleStrictlyIncreasing | normalize_nifti.py:27-31 | x < y exactly when the rescaled x is below the rescaled y |
| NormalizeNifti.RescaleInRange | normalize_nifti.py:27-31 | every value between min and max is rescaled into [-32767, 32767], inside the int16 range |
| NormalizeNifti.RescaleMidpoint | normalize_nifti.py:27-28 | the midpoint of [min, max] maps to 0 |
| NormalizeNifti.NormalizedInRangeAndOrdered | normalize_nifti.py:27-31 | every output voxel lies in [-32767, 32767]; output voxels compare exactly as the input voxels do, ties included |
| NormalizeNifti.NormalizedExtrema | normalize_nifti.py:26-31 | the normalized volume's minimum is exactly -32767 and its maximum exactly 32767 |
| NormalizeNifti.CopyVoxels | normalize_nifti.py:29 | `copy()` yields a fresh array with the same values |
| NormalizeNifti.MultiplyInPlace | normalize_nifti.py:30 | `*= a` multiplies every element by `a` in place |
| NormalizeNifti.AddInPlace | normalize_nifti.py:31 | `+= b` adds `b` to every element in place |
| NormalizeNifti.ScaledCopy | normalize_nifti.py:29-31 | copy, multiply and add yield a fresh array holding `x * a + b` for every input voxel `x` |
| NormalizeNifti.Normalize | normalize_nifti.py:25-36 | for a non-constant volume: a fresh voxel array equal to the normalized voxels; the input array is unchanged; shape and affine are passed through; the header is passed through with its stored voxel type set to int16 |

## Left out

- nii2dcm.py is not part of this model. It is the pipeline driver:
  - temporary directories;
  - file copies;
  - the Dockerized nifti2dicom and medcon runs;
  - the check that medcon's output file exists;
  - argument parsing;
  - its own unused `IMAGE_COMMENTS` constant.
  All of it is process and filesystem I/O.
- Reading and writing files is not modelled: `pydicom.dcmread`, `save_as`, `nib.load` and `nib.save`. Datasets and images are in-memory values.
- The `main` functions of both core files are not modelled. They only parse arguments.
- The console output of `correct_dicomtags` is modelled as a sequence of (tag, value) pairs. The `"%s: '%s'"` formatting is not modelled, nor is the final "written to" line.
- Tag values are modelled as `string`. pydicom returns typed values (person names, decimal strings, multi-values); the model stands each for its text.
- `getattr` failing is modelled as the tag being absent from the donor. The source's bare `except` would also turn any other read error into `""`.
- Python's iteration order over the allow-list set is not fixed. The copy loop takes the tags in an arbitrary order (`:|`), and its result is proved the same for every order.
- NormalizeNifti.Normalize requires a non-empty volume. `np.max` on an empty array raises an exception that the source does not catch.
- NormalizeNifti.Normalize requires max > min. The source has no guard for a constant volume, where numpy divides by zero and yields inf/nan. The model follows the code and keeps the case out with a precondition.
- NormalizeNifti.Normalize stops before the int16 conversion. Its voxels are exact reals, so floating-point rounding, NaN, and nibabel's float-to-int16 scaling and casting are not modelled. The range lemmas show that exact values fit the int16 range.
- NormalizeNifti.Normalize passes the header through except for its stored voxel type. It does not model nibabel recomputing the header's sform/qform from the affine. Because the affine comes from the same image, that recomputation should leave them as they were.
- The voxel grid is kept as a flat array plus its shape. Index-to-position geometry is not modelled, because the normalizer never uses it.
