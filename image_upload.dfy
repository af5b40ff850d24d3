/**
 * The image list editor of the admin product form
 * (src/components/admin/ImageUpload.tsx). The list holds entry objects that
 * the handlers share with earlier copies of the list: `removeImage` and
 * `updateAltText` change an entry in place, while `handleFiles` and
 * `setPrimaryImage` build new entries. Preview URLs and uploads are
 * parameters.
 */
module ImageUpload {
  import opened Wrappers
  import opened Text
  import opened Store

  /** A file picked by the user: its name and MIME type. */
  datatype FileInfo = FileInfo(name: string, mimeType: string)

  /** One image of the list, as a value: a file is present while the image still awaits upload. */
  datatype ImageValue = ImageValue(url: string, isPrimary: bool, altText: string, file: Option<FileInfo>)

  /** A stored `product_images` row handed to the editor. */
  datatype ExistingImage = ExistingImage(imageUrl: string, altText: Option<string>, isPrimary: bool)

  // ---------- the list logic, on values ----------

  /** `files.filter(file => file.type.startsWith('image/'))`. */
  function ImageFiles(files: seq<FileInfo>): (r: seq<FileInfo>)
    ensures forall f :: f in r <==> f in files && StartsWith(f.mimeType, "image/")
  {
    Filter(files, (f: FileInfo) => StartsWith(f.mimeType, "image/"))
  }

  predicate NoDotOrSlash(s: string) {
    forall c :: c in s ==> c != '.' && c != '/'
  }

  /** Index `i` starts the extension `/\.[^/.]+$/` matches: a dot, then one or more characters up to the end, none a dot or slash. */
  predicate IsExtensionDot(name: string, i: nat) {
    i < |name| - 1 && name[i] == '.' && NoDotOrSlash(name[i + 1..])
  }

  /** Searches leftwards from `j`, past a tail that is already free of dots and slashes, for the extension's dot. */
  function ExtensionDot(name: string, j: nat): (r: Option<nat>)
    requires j <= |name| && NoDotOrSlash(name[j..])
    ensures r.Some? ==> r.value < |name| && IsExtensionDot(name, r.value)
    ensures r.None? ==> forall i :: 0 <= i < |name| ==> !IsExtensionDot(name, i)
  {
    if j == 0 then
      NoDotBeforeStop(name, j);
      None
    else if name[j - 1] == '/' || (name[j - 1] == '.' && j == |name|) then
      NoDotBeforeStop(name, j);
      None
    else if name[j - 1] == '.' then
      Some(j - 1)
    else
      assert name[j - 1..] == [name[j - 1]] + name[j..];
      ExtensionDot(name, j - 1)
  }

  /**
   * No index is an extension dot when the tail from `j` has no dot or slash
   * and the character before it is a slash, or a dot ending the name.
   */
  lemma NoDotBeforeStop(name: string, j: nat)
    requires j <= |name| && NoDotOrSlash(name[j..])
    requires j > 0 ==> name[j - 1] == '/' || (name[j - 1] == '.' && j == |name|)
    ensures forall i :: 0 <= i < |name| ==> !IsExtensionDot(name, i)
  {
    forall i | 0 <= i < |name| ensures !IsExtensionDot(name, i) {
      if i + 1 < j {
        assert name[i + 1..][j - 2 - i] == name[j - 1];
        assert name[j - 1] in name[i + 1..];
      } else if j <= i {
        assert name[j..][i - j] == name[i];
        assert name[i] in name[j..];
      }
    }
  }

  /** A name has at most one extension dot: every other index, before or after it, is not one. */
  lemma ExtensionDotUnique(name: string, i: nat)
    requires i < |name| && IsExtensionDot(name, i)
    ensures forall j :: 0 <= j < |name| && j != i ==> !IsExtensionDot(name, j)
  {
    forall j | 0 <= j < |name| && j != i ensures !IsExtensionDot(name, j) {
      if j < i {
        assert name[j + 1..][i - j - 1] == name[i];
        assert name[i] in name[j + 1..];
      } else {
        assert name[i + 1..][j - i - 1] == name[j];
        assert name[j] in name[i + 1..];
      }
    }
  }

  /** `name.replace(/\.[^/.]+$/, '')`: the file name without its last extension, if it has one. */
  function StripExtension(name: string): (r: string)
    ensures forall i :: 0 <= i < |name| && IsExtensionDot(name, i) ==> r == name[..i]
    ensures (forall i :: 0 <= i < |name| ==> !IsExtensionDot(name, i)) ==> r == name
  {
    match ExtensionDot(name, |name|)
    case Some(i) =>
      ExtensionDotUnique(name, i);
      name[..i]
    case None => name
  }

  /** The editor's entries for newly picked image files: appended after the list, primary only if the list was empty. */
  function NewImages(listWasEmpty: bool, files: seq<FileInfo>, preview: FileInfo -> string): (r: seq<ImageValue>)
    ensures |r| == |files|
    ensures forall k :: 0 <= k < |files| ==>
      r[k] == ImageValue(preview(files[k]), listWasEmpty, StripExtension(files[k].name), Some(files[k]))
  {
    seq(|files|, k requires 0 <= k < |files| =>
      ImageValue(preview(files[k]), listWasEmpty, StripExtension(files[k].name), Some(files[k])))
  }

  /** The list after `handleFiles`: unchanged when no file is an image. */
  function AfterFiles(vs: seq<ImageValue>, files: seq<FileInfo>, preview: FileInfo -> string): (r: seq<ImageValue>)
    ensures ImageFiles(files) == [] ==> r == vs
    ensures |r| == |vs| + |ImageFiles(files)| && r[..|vs|] == vs
    ensures ImageFiles(files) != [] ==> r[|vs|..] == NewImages(|vs| == 0, ImageFiles(files), preview)
  {
    var picked := ImageFiles(files);
    if picked == [] then vs else vs + NewImages(|vs| == 0, picked, preview)
  }

  /** The list after `removeImage(i)`: `i` dropped, and the new first image made primary if the removed one was. */
  function RemovedAt(vs: seq<ImageValue>, i: nat): (r: seq<ImageValue>)
    requires i < |vs|
    ensures |r| == |vs| - 1
    ensures forall k :: 0 <= k < |r| ==> r[k].url == (if k < i then vs[k] else vs[k + 1]).url
    ensures forall k :: 0 <= k < |r| ==> r[k].altText == (if k < i then vs[k] else vs[k + 1]).altText
    ensures forall k :: 0 <= k < |r| ==> r[k].file == (if k < i then vs[k] else vs[k + 1]).file
    ensures forall k :: 0 < k < |r| ==> r[k].isPrimary == vs[if k < i then k else k + 1].isPrimary
    ensures |r| > 0 ==> r[0].isPrimary == (vs[i].isPrimary || vs[if i == 0 then 1 else 0].isPrimary)
  {
    var rest := vs[..i] + vs[i + 1..];
    if vs[i].isPrimary && |rest| > 0 then rest[0 := rest[0].(isPrimary := true)] else rest
  }

  /** The list after `setPrimaryImage(i)`: image `i` alone is primary. */
  function WithPrimaryAt(vs: seq<ImageValue>, i: nat): (r: seq<ImageValue>)
    ensures |r| == |vs|
    ensures forall k :: 0 <= k < |vs| ==> r[k] == vs[k].(isPrimary := k == i)
  {
    seq(|vs|, k requires 0 <= k < |vs| => vs[k].(isPrimary := k == i))
  }

  /** Non-empty lists have a primary image. */
  ghost predicate HasPrimary(vs: seq<ImageValue>) {
    |vs| > 0 ==> exists k :: 0 <= k < |vs| && vs[k].isPrimary
  }

  /** Image `p` is primary and no other image is. */
  ghost predicate SolePrimary(vs: seq<ImageValue>, p: int) {
    0 <= p < |vs| && vs[p].isPrimary && forall k :: 0 <= k < |vs| && k != p ==> !vs[k].isPrimary
  }

  /** Exactly one image is primary. */
  ghost predicate ExactlyOnePrimary(vs: seq<ImageValue>) {
    exists p :: SolePrimary(vs, p)
  }

  /** Adding files keeps a primary image in a non-empty list: a first batch brings its own, later batches keep the old one. */
  lemma AfterFilesKeepsPrimary(vs: seq<ImageValue>, files: seq<FileInfo>, preview: FileInfo -> string)
    requires HasPrimary(vs)
    ensures HasPrimary(AfterFiles(vs, files, preview))
  {
    var r := AfterFiles(vs, files, preview);
    if |vs| == 0 && |r| > 0 {
      assert r[0].isPrimary;
    } else if |vs| > 0 {
      var k :| 0 <= k < |vs| && vs[k].isPrimary;
      assert r[k] == vs[k];
    }
  }

  /** Two or more images that are all primary do not have exactly one primary. */
  lemma AllPrimaryNotExactlyOne(vs: seq<ImageValue>)
    requires |vs| >= 2 && forall k :: 0 <= k < |vs| ==> vs[k].isPrimary
    ensures !ExactlyOnePrimary(vs)
  {
    forall p | 0 <= p < |vs| ensures !SolePrimary(vs, p) {
      var other := if p == 0 then 1 else 0;
      assert vs[other].isPrimary;
    }
  }

  /** The first batch is primary throughout, so two or more images in it break "exactly one primary". */
  lemma FirstBatchAllPrimary(files: seq<FileInfo>, preview: FileInfo -> string)
    requires |ImageFiles(files)| >= 2
    ensures var r := AfterFiles([], files, preview);
      (forall k :: 0 <= k < |r| ==> r[k].isPrimary) && !ExactlyOnePrimary(r)
  {
    var r := AfterFiles([], files, preview);
    assert r == [] + NewImages(true, ImageFiles(files), preview);
    AllPrimaryNotExactlyOne(r);
  }

  /** Later batches are never primary: a non-empty list keeps its primary images and gains none. */
  lemma LaterBatchNotPrimary(vs: seq<ImageValue>, files: seq<FileInfo>, preview: FileInfo -> string)
    requires |vs| > 0
    ensures var r := AfterFiles(vs, files, preview);
      forall k :: |vs| <= k < |r| ==> !r[k].isPrimary
  {
  }

  /** Removing an image keeps a primary image in what is left. */
  lemma RemovedAtKeepsPrimary(vs: seq<ImageValue>, i: nat)
    requires i < |vs| && HasPrimary(vs)
    ensures HasPrimary(RemovedAt(vs, i))
  {
    var r := RemovedAt(vs, i);
    if |r| > 0 && !vs[i].isPrimary {
      var k :| 0 <= k < |vs| && vs[k].isPrimary;
      assert k != i;
      var j := if k < i then k else k - 1;
      assert r[j].isPrimary || j == 0;
    }
  }

  /** Removing an image keeps "exactly one primary" once at least one image is left. */
  lemma RemovedAtKeepsExactlyOne(vs: seq<ImageValue>, i: nat)
    requires i < |vs| && |vs| >= 2 && ExactlyOnePrimary(vs)
    ensures ExactlyOnePrimary(RemovedAt(vs, i))
  {
    var r := RemovedAt(vs, i);
    var p :| SolePrimary(vs, p);
    if p == i {
      assert r[0].isPrimary;
      assert forall k :: 0 < k < |r| ==> !r[k].isPrimary;
      assert SolePrimary(r, 0);
    } else {
      var q := if p < i then p else p - 1;
      assert r[q].isPrimary;
      forall k | 0 <= k < |r| && k != q ensures !r[k].isPrimary {
        if k == 0 {
          assert !vs[i].isPrimary;
          assert !vs[if i == 0 then 1 else 0].isPrimary;
        }
      }
      assert SolePrimary(r, q);
    }
  }

  /** After `setPrimaryImage(i)` on a valid index exactly one image, image `i`, is primary. */
  lemma WithPrimaryAtExactlyOne(vs: seq<ImageValue>, i: nat)
    requires i < |vs|
    ensures ExactlyOnePrimary(WithPrimaryAt(vs, i))
  {
    assert SolePrimary(WithPrimaryAt(vs, i), i);
  }

  /** The list after `updateAltText(i, t)`: only image `i`'s alt text changes. */
  function WithAltText(vs: seq<ImageValue>, i: nat, altText: string): (r: seq<ImageValue>)
    requires i < |vs|
    ensures |r| == |vs| && r[i].altText == altText
    ensures r[i].(altText := vs[i].altText) == vs[i]
    ensures forall k :: 0 <= k < |vs| && k != i ==> r[k] == vs[k]
  {
    vs[i := vs[i].(altText := altText)]
  }

  /** Editing alt text changes no primary flag. */
  lemma WithAltTextKeepsPrimaries(vs: seq<ImageValue>, i: nat, altText: string)
    requires i < |vs|
    ensures ExactlyOnePrimary(vs) ==> ExactlyOnePrimary(WithAltText(vs, i, altText))
    ensures HasPrimary(vs) ==> HasPrimary(WithAltText(vs, i, altText))
  {
    var r := WithAltText(vs, i, altText);
    if ExactlyOnePrimary(vs) {
      var p :| SolePrimary(vs, p);
      assert r[p].isPrimary;
      assert forall k :: 0 <= k < |r| && k != p ==> !r[k].isPrimary;
      assert SolePrimary(r, p);
    }
    if HasPrimary(vs) && |vs| > 0 {
      var k :| 0 <= k < |vs| && vs[k].isPrimary;
      assert r[k].isPrimary;
    }
  }

  /**
   * `uploadAllImages`: images without a pending file are kept as they are;
   * each pending one is uploaded and gets its public URL, or is dropped when
   * the upload fails. The order is kept.
   */
  function UploadedImages(vs: seq<ImageValue>, upload: FileInfo -> Option<string>): (r: seq<ImageValue>)
    ensures |r| <= |vs|
    ensures forall v :: v in r ==> v.file.None?
    ensures forall v :: v in vs && v.file.None? ==> v in r
    ensures forall v :: v in vs && v.file.Some? && upload(v.file.value).Some? ==>
      v.(url := upload(v.file.value).value, file := None) in r
  {
    if vs == [] then []
    else
      assert forall v :: v in vs ==> v == vs[0] || v in vs[1..];
      Uploaded1(vs[0], upload) + UploadedImages(vs[1..], upload)
  }

  /** The upload of a pending image fails, so `uploadAllImages` drops it. */
  predicate UploadFails(v: ImageValue, upload: FileInfo -> Option<string>) {
    v.file.Some? && upload(v.file.value).None?
  }

  /** One image after `uploadAllImages`: kept, given its public URL, or dropped. */
  function Uploaded1(v: ImageValue, upload: FileInfo -> Option<string>): (r: seq<ImageValue>)
    ensures r == [] <==> UploadFails(v, upload)
    ensures |r| <= 1
    ensures forall w :: w in r ==> w.file.None? && w.isPrimary == v.isPrimary && w.altText == v.altText
    ensures v.file.None? ==> r == [v]
  {
    match v.file
    case None => [v]
    case Some(f) => if upload(f).Some? then [v.(url := upload(f).value, file := None)] else []
  }

  /** Uploading keeps the list's order: the images of a prefix come before those of the rest. */
  lemma {:induction false} UploadedImagesAppend(a: seq<ImageValue>, b: seq<ImageValue>,
                                                upload: FileInfo -> Option<string>)
    ensures UploadedImages(a + b, upload) == UploadedImages(a, upload) + UploadedImages(b, upload)
  {
    if a == [] {
      assert a + b == b;
    } else {
      UploadedImagesAppend(a[1..], b, upload);
      UploadedImagesStep(a, b, upload);
      ConcatAssoc(Uploaded1(a[0], upload), UploadedImages(a[1..], upload), UploadedImages(b, upload));
    }
  }

  /** Concatenation regroups freely. */
  lemma ConcatAssoc<T>(x: seq<T>, y: seq<T>, z: seq<T>)
    ensures x + (y + z) == (x + y) + z
  {
  }

  /** The first image of `a` leads the upload of `a + b`. */
  lemma UploadedImagesStep(a: seq<ImageValue>, b: seq<ImageValue>, upload: FileInfo -> Option<string>)
    requires a != []
    ensures UploadedImages(a + b, upload) == Uploaded1(a[0], upload) + UploadedImages(a[1..] + b, upload)
  {
    assert (a + b)[0] == a[0] && (a + b)[1..] == a[1..] + b;
  }

  /** Exactly the images whose upload fails are dropped: the count of survivors and failures is the list's length. */
  lemma {:induction false} UploadedImagesCount(vs: seq<ImageValue>, upload: FileInfo -> Option<string>)
    ensures |UploadedImages(vs, upload)| + |Filter(vs, w => UploadFails(w, upload))| == |vs|
  {
    if vs != [] {
      UploadedImagesCount(vs[1..], upload);
      var fails := w => UploadFails(w, upload);
      assert Filter(vs, fails) == (if fails(vs[0]) then [vs[0]] else []) + Filter(vs[1..], fails);
      assert |UploadedImages(vs, upload)| == |Uploaded1(vs[0], upload)| + |UploadedImages(vs[1..], upload)|;
    }
  }

  /** Every image that comes out is the kept or uploaded form of an image that went in. */
  lemma {:induction false} UploadedImagesOrigin(vs: seq<ImageValue>, upload: FileInfo -> Option<string>)
    ensures forall v :: v in UploadedImages(vs, upload) ==> exists w :: w in vs && v in Uploaded1(w, upload)
  {
    if vs != [] {
      UploadedImagesOrigin(vs[1..], upload);
      var head, rest := Uploaded1(vs[0], upload), UploadedImages(vs[1..], upload);
      assert UploadedImages(vs, upload) == head + rest;
      forall v | v in head + rest ensures exists w :: w in vs && v in Uploaded1(w, upload) {
        if v in head {
          assert vs[0] in vs;
        } else {
          var w :| w in vs[1..] && v in Uploaded1(w, upload);
          assert w in vs;
        }
      }
    }
  }

  /** When every upload succeeds nothing is dropped and each image keeps its place, primary flag and alt text. */
  lemma {:induction false} UploadAllSucceed(vs: seq<ImageValue>, upload: FileInfo -> Option<string>)
    requires forall k :: 0 <= k < |vs| && vs[k].file.Some? ==> upload(vs[k].file.value).Some?
    ensures var r := UploadedImages(vs, upload);
      |r| == |vs| && forall k :: 0 <= k < |vs| ==> r[k].isPrimary == vs[k].isPrimary && r[k].altText == vs[k].altText
  {
    if vs != [] {
      forall k | 0 <= k < |vs[1..]| && vs[1..][k].file.Some? ensures upload(vs[1..][k].file.value).Some? {
        assert vs[1..][k] == vs[k + 1];
      }
      UploadAllSucceed(vs[1..], upload);
      var head := Uploaded1(vs[0], upload);
      var rest := UploadedImages(vs[1..], upload);
      assert UploadedImages(vs, upload) == head + rest;
      SameFieldsCons(head, rest, vs);
    }
  }

  /** Joining a one-entry head and a tail that keep the flags and texts of `vs`'s first entry and of its rest. */
  lemma SameFieldsCons(head: seq<ImageValue>, rest: seq<ImageValue>, vs: seq<ImageValue>)
    requires |head| == 1 && vs != [] && head[0].isPrimary == vs[0].isPrimary && head[0].altText == vs[0].altText
    requires |rest| == |vs| - 1
    requires forall k :: 0 <= k < |rest| ==> rest[k].isPrimary == vs[1..][k].isPrimary && rest[k].altText == vs[1..][k].altText
    ensures var r := head + rest;
      |r| == |vs| && forall k :: 0 <= k < |vs| ==> r[k].isPrimary == vs[k].isPrimary && r[k].altText == vs[k].altText
  {
    var r := head + rest;
    forall k | 0 <= k < |vs| ensures r[k].isPrimary == vs[k].isPrimary && r[k].altText == vs[k].altText {
      if k > 0 {
        assert r[k] == rest[k - 1] && vs[k] == vs[1..][k - 1];
      }
    }
  }

  // ---------- the editor's state ----------

  /** One entry of the editor's list; the handlers may change it in place. */
  class ImageEntry {
    var url: string
    var isPrimary: bool
    var altText: string
    var file: Option<FileInfo>

    constructor (v: ImageValue)
      ensures Value() == v
    {
      url, isPrimary, altText, file := v.url, v.isPrimary, v.altText, v.file;
    }

    function Value(): ImageValue
      reads this
    {
      ImageValue(url, isPrimary, altText, file)
    }
  }

  /** Fresh, distinct entries holding the given values. */
  method Materialize(vs: seq<ImageValue>) returns (es: seq<ImageEntry>)
    ensures |es| == |vs|
    ensures forall k :: 0 <= k < |es| ==> fresh(es[k]) && es[k].Value() == vs[k]
    ensures forall i, j :: 0 <= i < j < |es| ==> es[i] != es[j]
  {
    es := [];
    var i := 0;
    while i < |vs|
      invariant 0 <= i <= |vs| && |es| == i
      invariant forall k :: 0 <= k < i ==> fresh(es[k]) && es[k].Value() == vs[k]
      invariant forall a, b :: 0 <= a < b < i ==> es[a] != es[b]
    {
      var e := new ImageEntry(vs[i]);
      es := es + [e];
      i := i + 1;
    }
  }

  /** The `images` state of the component. */
  class ImageUploadState {
    var images: seq<ImageEntry>

    /** No entry appears twice in the list. */
    ghost predicate Valid()
      reads this
    {
      forall i, j :: 0 <= i < j < |images| ==> images[i] != images[j]
    }

    /** The list as values. */
    function Values(): (vs: seq<ImageValue>)
      reads this, images
      ensures |vs| == |images|
    {
      seq(|images|, k reads this, images requires 0 <= k < |images| => images[k].Value())
    }

    /** The initial state: the stored images, with a missing alt text read as empty. */
    constructor (existing: seq<ExistingImage>)
      ensures Valid()
      ensures |Values()| == |existing|
      ensures forall k :: 0 <= k < |existing| ==>
        Values()[k] == ImageValue(existing[k].imageUrl, existing[k].isPrimary, existing[k].altText.GetOr(""), None)
    {
      var vs := seq(|existing|, k requires 0 <= k < |existing| =>
        ImageValue(existing[k].imageUrl, existing[k].isPrimary, existing[k].altText.GetOr(""), None));
      var es := Materialize(vs);
      images := es;
    }

    /** `handleFiles`: append entries for the image files; nothing changes when there are none. */
    method HandleFiles(files: seq<FileInfo>, preview: FileInfo -> string)
      requires Valid()
      modifies this
      ensures Valid()
      ensures Values() == AfterFiles(old(Values()), files, preview)
      ensures images[..|old(images)|] == old(images)
    {
      var picked := ImageFiles(files);
      if picked == [] {
        return;
      }
      ghost var before := Values();
      var added := Materialize(NewImages(|images| == 0, picked, preview));
      images := images + added;
      assert forall k :: 0 <= k < |before| ==> Values()[k] == before[k];
    }

    /**
     * `removeImage(i)`: the kept entries are the old objects, and the promoted
     * first one is changed in place; the removed entry is left as it was.
     */
    method RemoveImage(i: nat)
      requires Valid() && i < |images|
      modifies this, images
      ensures Valid()
      ensures Values() == RemovedAt(old(Values()), i)
      ensures images == old(images[..i] + images[i + 1..])
      ensures unchanged(old(images[i]))
    {
      ghost var before := Values();
      var wasPrimary := images[i].isPrimary;
      var rest := images[..i] + images[i + 1..];
      if wasPrimary && |rest| > 0 {
        rest[0].isPrimary := true;
      }
      images := rest;
      ghost var after := RemovedAt(before, i);
      forall k | 0 <= k < |rest| ensures Values()[k] == after[k] {
        assert rest[k] == old(images)[if k < i then k else k + 1];
        if k > 0 {
          assert rest[k] != rest[0];
        }
      }
    }

    /** `setPrimaryImage(i)`: new entries, with image `i` alone primary. */
    method SetPrimaryImage(i: nat)
      requires Valid()
      modifies this
      ensures Valid()
      ensures Values() == WithPrimaryAt(old(Values()), i)
    {
      images := Materialize(WithPrimaryAt(Values(), i));
    }

    /** `updateAltText(i, t)`: entry `i` is changed in place. */
    method UpdateAltText(i: nat, altText: string)
      requires Valid() && i < |images|
      modifies images[i]
      ensures Valid()
      ensures Values() == WithAltText(old(Values()), i, altText)
    {
      ghost var before := Values();
      images[i].altText := altText;
      assert forall k :: 0 <= k < |images| && k != i ==> Values()[k] == before[k];
    }
  }
}
