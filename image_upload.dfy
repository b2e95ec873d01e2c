/**
 * The multi-image form field: a list of images tagged with what the
 * backend must do with them ("old", "new", "updated", "deleted"), the
 * edits that add, remove and replace images, and drag-and-drop
 * reordering. A `File` is an opaque upload; an existing image is its URL.
 */
module ImageUpload {
  import opened Wrappers
  import Seqs

  datatype Status = Old | New | Deleted | Updated

  /** `string | File` */
  datatype ImageFile = Url(url: string) | Upload(name: string)

  datatype ImageItem = ImageItem(status: Status, file: ImageFile, oldUrl: Option<string>)

  function NotDeleted(): ImageItem -> bool {
    (img: ImageItem) => img.status != Deleted
  }

  /** `visibleImages` */
  function Visible(images: seq<ImageItem>): seq<ImageItem> {
    Seqs.Filter(NotDeleted(), images)
  }

  /** The visible images are the images not marked deleted, in order; the deleted ones stay in the list. */
  lemma VisibleAreNotDeleted(images: seq<ImageItem>, img: ImageItem)
    ensures img in Visible(images) <==> img in images && img.status != Deleted
    ensures Seqs.SubsequenceOf(Visible(images), images)
  {
    Seqs.FilterMembers(NotDeleted(), images, img);
    Seqs.FilterIsSubsequence(NotDeleted(), images);
  }

  // ---------------------------------------------------------------------
  // Editing the list
  // ---------------------------------------------------------------------

  /** Each file as a "new" entry. */
  function AsNew(files: seq<ImageFile>): (r: seq<ImageItem>)
    ensures |r| == |files|
    ensures forall i :: 0 <= i < |files| ==> r[i] == ImageItem(New, files[i], None)
  {
    seq(|files|, i requires 0 <= i < |files| => ImageItem(New, files[i], None))
  }

  /** The list after adding, and whether the too-many-images error was shown. */
  datatype Added = Added(images: seq<ImageItem>, tooMany: bool)

  /**
   * `handleAddImages`: at most `maxImages - |visible|` of the files
   * (`Array.from(files).slice(0, allowed)`) are appended as "new" entries,
   * and the error is shown when more were offered. No file list changes
   * nothing.
   */
  function AddImages(images: seq<ImageItem>, files: Option<seq<ImageFile>>, maxImages: int): (r: Added)
    ensures files.None? ==> r == Added(images, false)
    ensures files.Some? ==> (r.tooMany <==> |files.value| > maxImages - |Visible(images)|)
    ensures |images| <= |r.images| && r.images[..|images|] == images
    ensures forall i :: |images| <= i < |r.images| ==> r.images[i].status == New && r.images[i].oldUrl == None
    ensures files.Some? && 0 <= maxImages - |Visible(images)| ==>
              r.images[|images|..] == AsNew(files.value[..Min(|files.value|, maxImages - |Visible(images)|)])
  {
    if files.None? then Added(images, false)
    else
      var allowed := maxImages - |Visible(images)|;
      var taken := Seqs.Slice(files.value, 0, allowed);
      assert 0 <= allowed ==> taken == files.value[..Min(|files.value|, allowed)];
      var added := AsNew(taken);
      assert (images + added)[..|images|] == images;
      assert (images + added)[|images|..] == added;
      Added(images + added, |files.value| > allowed)
  }

  function Min(a: int, b: int): int {
    if a < b then a else b
  }

  /** Adding never takes the visible images past the limit they were within. */
  lemma AddKeepsLimit(images: seq<ImageItem>, files: Option<seq<ImageFile>>, maxImages: int)
    requires |Visible(images)| <= maxImages
    ensures |Visible(AddImages(images, files, maxImages).images)| <= maxImages
  {
    if files.Some? {
      var allowed := maxImages - |Visible(images)|;
      var added := AsNew(Seqs.Slice(files.value, 0, allowed));
      Seqs.FilterAppend(NotDeleted(), images, added);
      Seqs.FilterAll(NotDeleted(), added);
    }
  }

  /** `handleRemoveImage`: the entry at `idx` is marked deleted and keeps its file. */
  function RemoveImage(images: seq<ImageItem>, idx: int): (r: seq<ImageItem>)
    ensures |r| == |images|
    ensures forall i :: 0 <= i < |images| && i != idx ==> r[i] == images[i]
    ensures 0 <= idx < |images| ==> r[idx] == images[idx].(status := Deleted)
  {
    seq(|images|, i requires 0 <= i < |images| => if i == idx then images[i].(status := Deleted) else images[i])
  }

  /** An index outside the list, such as the -1 of a failed search, removes nothing. */
  lemma RemoveOutsideIsNoOp(images: seq<ImageItem>, idx: int)
    requires idx < 0 || idx >= |images|
    ensures RemoveImage(images, idx) == images
  {
  }

  /**
   * The entry that replaces `img` by `file`: an "old" image becomes
   * "updated" and remembers its URL; any other becomes "new" and forgets
   * any URL it had.
   */
  function Replacement(img: ImageItem, file: ImageFile): (r: ImageItem)
    ensures r.file == file
    ensures img.status == Old ==> r.status == Updated && r.oldUrl == (if img.file.Url? then Some(img.file.url) else None)
    ensures img.status != Old ==> r.status == New && r.oldUrl == None
  {
    if img.status == Old then ImageItem(Updated, file, if img.file.Url? then Some(img.file.url) else None)
    else ImageItem(New, file, None)
  }

  /** `handleUpdateImage` */
  function UpdateImage(images: seq<ImageItem>, idx: int, file: ImageFile): (r: seq<ImageItem>)
    ensures |r| == |images|
    ensures forall i :: 0 <= i < |images| && i != idx ==> r[i] == images[i]
    ensures 0 <= idx < |images| ==> r[idx] == Replacement(images[idx], file)
  {
    seq(|images|, i requires 0 <= i < |images| => if i == idx then Replacement(images[i], file) else images[i])
  }

  /**
   * A stored image replaced once is "updated" and remembers its URL; a
   * second replacement makes it "new" and the stored URL is no longer
   * anywhere in the entry.
   */
  lemma ReplacingTwiceForgetsStoredUrl(img: ImageItem, first: ImageFile, second: ImageFile)
    requires img.status == Old && img.file.Url?
    ensures Replacement(img, first).status == Updated && Replacement(img, first).oldUrl == Some(img.file.url)
    ensures var twice := Replacement(Replacement(img, first), second);
            twice == ImageItem(New, second, None)
  {
  }

  // ---------------------------------------------------------------------
  // Reordering
  // ---------------------------------------------------------------------

  /** `s` without its element at `i`. */
  function Without<T>(s: seq<T>, i: nat): (r: seq<T>)
    requires i < |s|
    ensures |r| == |s| - 1
  {
    s[..i] + s[i + 1..]
  }

  /** `splice(from, 1)` then `splice(to, 0, removed)`: the element at `from` moves to `to`. */
  function Moved<T>(s: seq<T>, from: nat, to: nat): (r: seq<T>)
    requires from < |s| && to < |s|
    ensures |r| == |s| && r[to] == s[from]
  {
    var rest := Without(s, from);
    rest[..to] + [s[from]] + rest[to..]
  }

  /** Moving is a permutation that keeps the other elements in their relative order. */
  lemma MovedPermutes<T>(s: seq<T>, from: nat, to: nat)
    requires from < |s| && to < |s|
    ensures multiset(Moved(s, from, to)) == multiset(s)
    ensures Without(Moved(s, from, to), to) == Without(s, from)
  {
    var rest, x := Without(s, from), s[from];
    var r := Moved(s, from, to);
    assert s == s[..from] + [x] + s[from + 1..];
    assert multiset(s) == multiset(rest) + multiset{x};
    assert rest == rest[..to] + rest[to..];
    assert r == rest[..to] + [x] + rest[to..];
    assert r[..to] == rest[..to] && r[to + 1..] == rest[to..];
  }

  /** The form field's state: the list and the pending drag and replacement. */
  class ImageField {
    var images: seq<ImageItem>
    var draggedIdx: Option<nat>
    var updateIndex: Option<int>
    const maxImages: int

    /** A drag in progress refers to an entry of the list. */
    ghost predicate Valid()
      reads this
    {
      draggedIdx.Some? ==> draggedIdx.value < |images|
    }

    constructor(initial: seq<ImageItem>, maxImages: int)
      ensures images == initial && draggedIdx == None && updateIndex == None && this.maxImages == maxImages && Valid()
    {
      images, draggedIdx, updateIndex := initial, None, None;
      this.maxImages := maxImages;
    }

    /** `handleAddImages`; returns whether the error toast was shown. */
    method AddFiles(files: Option<seq<ImageFile>>) returns (tooMany: bool)
      requires Valid()
      modifies this
      ensures images == AddImages(old(images), files, maxImages).images
      ensures tooMany == AddImages(old(images), files, maxImages).tooMany
      ensures draggedIdx == old(draggedIdx) && updateIndex == old(updateIndex) && Valid()
    {
      var r := AddImages(images, files, maxImages);
      images := r.images;
      tooMany := r.tooMany;
    }

    /** `handleRemoveImage` */
    method Remove(idx: int)
      requires Valid()
      modifies this
      ensures images == RemoveImage(old(images), idx)
      ensures draggedIdx == old(draggedIdx) && updateIndex == old(updateIndex) && Valid()
    {
      images := RemoveImage(images, idx);
    }

    /** `onImageClick`: remembers which entry the file picker will replace. */
    method ImageClick(idx: int)
      modifies this
      ensures updateIndex == Some(idx)
      ensures images == old(images) && draggedIdx == old(draggedIdx)
    {
      updateIndex := Some(idx);
    }

    /** The replacement picker's change: the first chosen file replaces the remembered entry, then the entry is forgotten. */
    method UpdateChosen(firstFile: Option<ImageFile>)
      requires Valid()
      modifies this
      ensures firstFile.Some? && old(updateIndex).Some? ==> images == UpdateImage(old(images), old(updateIndex).value, firstFile.value)
      ensures !(firstFile.Some? && old(updateIndex).Some?) ==> images == old(images)
      ensures updateIndex == None && draggedIdx == old(draggedIdx) && Valid()
    {
      if firstFile.Some? && updateIndex.Some? {
        images := UpdateImage(images, updateIndex.value, firstFile.value);
      }
      updateIndex := None;
    }

    /** `handleDragStart` */
    method DragStart(idx: nat)
      requires idx < |images|
      modifies this
      ensures draggedIdx == Some(idx) && images == old(images) && updateIndex == old(updateIndex) && Valid()
    {
      draggedIdx := Some(idx);
    }

    /**
     * `handleDrop`: with a drag in progress onto another entry, the dragged
     * entry moves there and the drag ends; otherwise nothing changes.
     */
    method Drop(idx: nat)
      requires idx < |images| && Valid()
      modifies this
      ensures old(draggedIdx).None? || old(draggedIdx) == Some(idx) ==>
                images == old(images) && draggedIdx == old(draggedIdx)
      ensures old(draggedIdx).Some? && old(draggedIdx) != Some(idx) ==>
                images == Moved(old(images), old(draggedIdx).value, idx) && draggedIdx == None
      ensures updateIndex == old(updateIndex) && Valid()
    {
      if draggedIdx.None? || draggedIdx == Some(idx) {
        return;
      }
      images := Moved(images, draggedIdx.value, idx);
      draggedIdx := None;
    }
  }
}
