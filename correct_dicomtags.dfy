/** The tag-merge policy of correct_dicomtags.py: a fixed allow-list of
    identity and grouping tags is copied from a donor DICOM dataset (an
    absent tag becomes ""), four pipeline-computed tags are added, and the
    resulting map is written onto the target dataset in ascending key order.

    Tag values are modelled by their textual form (`string`). */
module DicomTags {
  import opened StringOrder

  type TagValue = string

  /** Tags copied from the donor so that the output groups with the donor's
      patient and study. */
  const GroupingTags: set<string> := {"PatientID", "PatientName", "PatientBirthDate", "StudyInstanceUID"}

  /** Further tags copied from the donor for information. */
  const AdditionalTags: set<string> := {
    "StudyID",
    "AcquisitionDate",
    "PatientSex",
    "MagneticFieldStrength",
    "Manufacturer",
    "ManufacturerModelName",
    "Modality",
    "StudyDescription",
    "InstitutionName"
  }

  /** The allow-list `COPY_DICOM_TAGS`. */
  const CopyDicomTags: set<string> := GroupingTags + AdditionalTags

  const ImageComments: TagValue := "*** NOT APPROVED FOR CLINICAL USE ***"
  const AccessionNumber: TagValue := "1"
  /** Declared beside the other constants but never written: the line that
      would override InstitutionName is commented out. */
  const InstitutionName: TagValue := "UZLEUVEN"

  /** Tags the pipeline computes itself, whatever the donor holds. */
  const OverrideTags: set<string> := {"SeriesDescription", "ImageComments", "AccessionNumber", "SeriesNumber"}

  /** A DICOM dataset whose data elements are read and written by keyword
      (`getattr` and `setattr` on a pydicom Dataset). */
  class DicomDataset {
    var tags: map<string, TagValue>

    constructor (tags: map<string, TagValue>)
      ensures this.tags == tags
    {
      this.tags := tags;
    }

    /** `getattr(dataset, tag)`, which fails when the element is absent. */
    function Get(tag: string): (r: Option<TagValue>)
      reads this
      ensures r.Some? <==> tag in tags
      ensures r.Some? ==> r.value == tags[tag]
    {
      if tag in tags then Some(tags[tag]) else None
    }

    /** `setattr(dataset, tag, value)`: adds or replaces one element. */
    method Set(tag: string, value: TagValue)
      modifies this
      ensures tags == old(tags)[tag := value]
    {
      tags := tags[tag := value];
    }
  }

  datatype Option<T> = None | Some(value: T)

  /** What the copy loop stores for one allow-listed tag: the donor's value,
      or "" when reading it fails. */
  function DonorValue(donor: map<string, TagValue>, tag: string): (v: TagValue)
    ensures tag in donor ==> v == donor[tag]
    ensures tag !in donor ==> v == ""
  {
    if tag in donor then donor[tag] else ""
  }

  /** The dictionary `update_dicom_tags` after the copy loop. */
  function CopiedTags(donor: map<string, TagValue>): (c: map<string, TagValue>)
    ensures c.Keys == CopyDicomTags
    ensures forall t :: t in c ==> c[t] == DonorValue(donor, t)
  {
    map t | t in CopyDicomTags :: DonorValue(donor, t)
  }

  /** The dictionary `update_dicom_tags` once it is complete: the allow-listed
      tags from the donor, then the four computed tags. */
  function MergedTags(donor: map<string, TagValue>, seriesLabel: string, seriesNumber: string): (m: map<string, TagValue>)
    ensures m.Keys == CopyDicomTags + OverrideTags
    ensures forall t :: t in CopyDicomTags ==> m[t] == DonorValue(donor, t)
    ensures m["SeriesDescription"] == seriesLabel
    ensures m["ImageComments"] == ImageComments
    ensures m["AccessionNumber"] == AccessionNumber
    ensures m["SeriesNumber"] == seriesNumber
  {
    OverrideTagsApart();
    CopiedTags(donor)["SeriesDescription" := seriesLabel]["ImageComments" := ImageComments]
          ["AccessionNumber" := AccessionNumber]["SeriesNumber" := seriesNumber]
  }

  /** Builds `update_dicom_tags`: one pass over the allow-list in whatever
      order the set yields, then the four computed assignments. */
  method BuildUpdate(donor: DicomDataset, seriesLabel: string, seriesNumber: string) returns (update: map<string, TagValue>)
    ensures update == MergedTags(donor.tags, seriesLabel, seriesNumber)
  {
    update := map[];
    var remaining := CopyDicomTags;
    while remaining != {}
      invariant remaining <= CopyDicomTags
      invariant update.Keys == CopyDicomTags - remaining
      invariant forall t :: t in update ==> update[t] == DonorValue(donor.tags, t)
      decreases remaining
    {
      var tag :| tag in remaining;
      match donor.Get(tag) {
        case Some(v) => update := update[tag := v];
        case None => update := update[tag := ""];
      }
      remaining := remaining - {tag};
    }
    assert update == CopiedTags(donor.tags);
    update := update["SeriesDescription" := seriesLabel];
    update := update["ImageComments" := ImageComments];
    update := update["AccessionNumber" := AccessionNumber];
    update := update["SeriesNumber" := seriesNumber];
  }

  /** The second loop: every entry of `update` is set on `target` in
      ascending key order, and each (tag, value) pair is logged as it is
      set. Tags of `target` that are not in `update` keep their values. */
  method ApplyTags(target: DicomDataset, update: map<string, TagValue>) returns (log: seq<(string, TagValue)>)
    modifies target
    ensures target.tags == old(target.tags) + update
    ensures |log| == |update|
    ensures forall i :: 0 <= i < |log| ==> log[i].0 in update && log[i].1 == update[log[i].0]
    ensures forall i, j :: 0 <= i < j < |log| ==> StrLess(log[i].0, log[j].0)
    ensures forall t :: t in update ==> (t, update[t]) in log
  {
    var order := SortedKeys(update.Keys);
    log := SetInOrder(target, update, order);
    forall t | t in update
      ensures (t, update[t]) in log
    {
      var i :| 0 <= i < |order| && order[i] == t;
      assert log[i] == (t, update[t]);
    }
  }

  /** Sets the entries of `update` on `target` one key at a time, in the
      order `keys` gives, logging each (tag, value) pair. */
  method SetInOrder(target: DicomDataset, update: map<string, TagValue>, keys: seq<string>) returns (log: seq<(string, TagValue)>)
    requires forall k :: k in update <==> k in keys
    modifies target
    ensures target.tags == old(target.tags) + update
    ensures log == LogOf(update, keys)
  {
    log := [];
    for i := 0 to |keys|
      invariant target.tags == old(target.tags) + Written(update, keys[..i])
      invariant log == LogOf(update, keys[..i])
    {
      var tag := keys[i];
      var value := update[tag];
      WrittenStep(target.tags, update, keys[..i], tag);
      assert keys[..i + 1] == keys[..i] + [tag];
      target.Set(tag, value);
      log := log + [(tag, value)];
    }
    assert keys[..|keys|] == keys;
    WrittenAll(update, keys);
  }

  /** The lines printed while `keys` are set: each tag with its value. */
  function LogOf(update: map<string, TagValue>, keys: seq<string>): (log: seq<(string, TagValue)>)
    requires forall k :: k in keys ==> k in update
    ensures |log| == |keys|
  {
    seq(|keys|, j requires 0 <= j < |keys| => (keys[j], update[keys[j]]))
  }

  /** The j-th printed line names the j-th key and the value it is set to. */
  lemma LogOfEntries(update: map<string, TagValue>, keys: seq<string>, j: nat)
    requires forall k :: k in keys ==> k in update
    requires j < |keys|
    ensures LogOf(update, keys)[j] == (keys[j], update[keys[j]])
  {
  }

  /** The entries of `update` whose keys are among `keys`. */
  ghost function Written(update: map<string, TagValue>, keys: seq<string>): map<string, TagValue>
  {
    map k | k in keys && k in update :: update[k]
  }

  lemma WrittenStep(base: map<string, TagValue>, update: map<string, TagValue>, keys: seq<string>, tag: string)
    requires tag in update
    ensures (base + Written(update, keys))[tag := update[tag]] == base + Written(update, keys + [tag])
  {
    var lhs, rhs := Written(update, keys + [tag]), Written(update, keys)[tag := update[tag]];
    assert forall k :: k in keys + [tag] <==> k in keys || k == tag;
    assert lhs.Keys == rhs.Keys;
    assert lhs == rhs;
  }

  lemma WrittenAll(update: map<string, TagValue>, keys: seq<string>)
    requires forall k :: k in update <==> k in keys
    ensures Written(update, keys) == update
  {
  }

  /** `correct_dicomtags` without the file reads and writes: merge the donor's
      tags with the computed ones and write them onto the target. */
  method CorrectDicomTags(target: DicomDataset, donor: DicomDataset, seriesLabel: string, seriesNumber: string)
    returns (log: seq<(string, TagValue)>)
    modifies target
    ensures target.tags == Corrected(old(target.tags), old(donor.tags), seriesLabel, seriesNumber)
    ensures |log| == |CopyDicomTags + OverrideTags|
    ensures forall i, j :: 0 <= i < j < |log| ==> StrLess(log[i].0, log[j].0)
    ensures forall i :: 0 <= i < |log| ==>
      log[i].0 in CopyDicomTags + OverrideTags && log[i].1 == MergedTags(old(donor.tags), seriesLabel, seriesNumber)[log[i].0]
    ensures forall t :: t in CopyDicomTags + OverrideTags ==> (t, MergedTags(old(donor.tags), seriesLabel, seriesNumber)[t]) in log
  {
    var update := BuildUpdate(donor, seriesLabel, seriesNumber);
    log := ApplyTags(target, update);
  }

  /** The target's tags after `correct_dicomtags`. */
  function Corrected(target: map<string, TagValue>, donor: map<string, TagValue>, seriesLabel: string, seriesNumber: string)
    : (r: map<string, TagValue>)
    ensures r.Keys == target.Keys + CopyDicomTags + OverrideTags
    ensures forall t :: t in CopyDicomTags + OverrideTags ==> r[t] == MergedTags(donor, seriesLabel, seriesNumber)[t]
    ensures forall t :: t !in CopyDicomTags + OverrideTags && t in target ==> r[t] == target[t]
  {
    target + MergedTags(donor, seriesLabel, seriesNumber)
  }

  /** The update holds exactly 17 tags. */
  lemma MergedTagCount(donor: map<string, TagValue>, seriesLabel: string, seriesNumber: string)
    ensures |MergedTags(donor, seriesLabel, seriesNumber)| == 17
  {
    AllowListSize();
    OverrideTagsApart();
    assert |OverrideTags| == 4;
  }

  /** COPY_DICOM_TAGS names 13 different tags. */
  lemma AllowListSize()
    ensures |CopyDicomTags| == 13
  {
    assert |GroupingTags| == 4;
    AdditionalTagsSize();
    GroupsApart();
  }

  lemma AdditionalTagsSize()
    ensures |AdditionalTags| == 9
  {
  }

  lemma GroupsApart()
    ensures GroupingTags !! AdditionalTags
  {
  }

  /** None of the computed tags is on the allow-list. */
  lemma OverrideTagsApart()
    ensures CopyDicomTags !! OverrideTags
  {
    assert GroupingTags !! OverrideTags;
    assert AdditionalTags !! OverrideTags;
  }



  /** InstitutionName is the donor's (or ""), never the INSTITUTION_NAME
      constant unless the donor holds that very value. */
  lemma InstitutionNameFromDonor(donor: map<string, TagValue>, seriesLabel: string, seriesNumber: string)
    ensures MergedTags(donor, seriesLabel, seriesNumber)["InstitutionName"] == InstitutionName
        <==> "InstitutionName" in donor && donor["InstitutionName"] == InstitutionName
  {
  }

  /** Two donors that agree on the allow-listed tags yield the same update:
      donor tags outside the allow-list never reach the output. */
  lemma MergeDependsOnlyOnAllowList(d1: map<string, TagValue>, d2: map<string, TagValue>, seriesLabel: string, seriesNumber: string)
    requires forall t :: t in CopyDicomTags ==> (t in d1 <==> t in d2)
    requires forall t :: t in CopyDicomTags && t in d1 ==> d1[t] == d2[t]
    ensures MergedTags(d1, seriesLabel, seriesNumber) == MergedTags(d2, seriesLabel, seriesNumber)
  {
    var c1, c2 := CopiedTags(d1), CopiedTags(d2);
    forall t | t in CopyDicomTags
      ensures c1[t] == c2[t]
    {
      assert DonorValue(d1, t) == DonorValue(d2, t);
    }
    assert c1 == c2;
  }

  /** Correcting an already corrected dataset with the same inputs changes
      nothing. */
  lemma CorrectedIdempotent(target: map<string, TagValue>, donor: map<string, TagValue>, seriesLabel: string, seriesNumber: string)
    ensures Corrected(Corrected(target, donor, seriesLabel, seriesNumber), donor, seriesLabel, seriesNumber)
         == Corrected(target, donor, seriesLabel, seriesNumber)
  {
    var once := Corrected(target, donor, seriesLabel, seriesNumber);
    var m := MergedTags(donor, seriesLabel, seriesNumber);
    assert once + m == once;
  }
}
