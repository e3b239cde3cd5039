/** The image pool: a directory of uploaded files, the images offered for
    posts, uploads and deletions. The directory is modelled as whether it
    exists and the names it lists, in listing order. `fs.readdirSync` goes
    through libuv's `scandir`, which sorts the entries with `strcmp`, so the
    listing is kept in code-point order (`Text.Before`). */
module Images {
  import opened Wrappers
  import Text
  import opened Seqs

  const ImageExtensions: seq<string> := [".jpg", ".jpeg", ".png", ".gif", ".webp"]
  const ImagesUrlPrefix: string := "/uploads/images/"
  const UploadErrorPrefix: string := "Failed to upload image: "
  const NoFileError: string := "No file provided"

  /** The index of the last '.' in `s`, if any. */
  function LastDot(s: string): (r: Option<nat>)
    ensures r.Some? ==> r.value < |s| && s[r.value] == '.' && '.' !in s[r.value + 1..]
    ensures r.None? ==> '.' !in s
  {
    if s == [] then None
    else if s[|s| - 1] == '.' then Some(|s| - 1)
    else
      var d := LastDot(s[..|s| - 1]);
      assert s == s[..|s| - 1] + [s[|s| - 1]];
      d
  }

  /** Node's `path.extname` of a plain file name (no '/'): from the last
      '.' to the end, except that a name without a dot, a name whose only
      leading dot is its last dot, and ".." have no extension. */
  function ExtName(name: string): (r: string)
    ensures r == "" || (r[0] == '.' && '.' !in r[1..] && |r| < |name| && name[|name| - |r|..] == r)
  {
    match LastDot(name)
    case None => ""
    case Some(i) =>
      if i == 0 || name == ".." then ""
      else name[i..]
  }

  /** A name ending in `.ext` after a non-empty stem has extension `.ext`. */
  lemma ExtNameOfDotted(stem: string, ext: string)
    requires stem != "" && '.' !in ext && !(stem == "." && ext == "")
    ensures ExtName(stem + "." + ext) == "." + ext
  {
    var name := stem + "." + ext;
    assert name[|stem|] == '.';
    assert name[|stem| + 1..] == ext;
    assert name[|stem|..] == "." + ext;
    var d := LastDot(name);
    assert d.Some? by {
      assert name[|stem|] in name;
    }
    assert d.value == |stem|;
    assert name != ".." by {
      if |name| == 2 {
        assert stem == [name[0]];
      }
    }
  }

  /** A name without a dot, or a dot-file whose only dot leads, has no
      extension. */
  lemma NoExtension(name: string)
    requires '.' !in name || (|name| > 0 && name[0] == '.' && '.' !in name[1..])
    ensures ExtName(name) == ""
  {
  }

  /** The filter of `getAvailableImages`. */
  predicate IsImageFile(name: string) {
    Text.ToLower(ExtName(name)) in ImageExtensions
  }

  /** A name is an image exactly when its extension after the last dot is
      one of the five allowed ones, in any letter case. */
  lemma ImageFileIff(stem: string, ext: string)
    requires stem != "" && '.' !in ext && !(stem == "." && ext == "")
    ensures IsImageFile(stem + "." + ext) <==> "." + Text.ToLower(ext) in ImageExtensions
  {
    ExtNameOfDotted(stem, ext);
    var lowered := Text.ToLower("." + ext);
    assert lowered == "." + Text.ToLower(ext) by {
      assert forall i :: 0 <= i < |lowered| ==> lowered[i] == ("." + Text.ToLower(ext))[i];
    }
  }

  /** What `getAvailableImages` reports for one file. */
  datatype ImageInfo = ImageInfo(filename: string, path: string, url: string)

  function InfoFor(imagesDir: string, name: string): (i: ImageInfo)
    ensures i.filename == name
  {
    ImageInfo(name, imagesDir + "/" + name, ImagesUrlPrefix + name)
  }

  /** The image files of a listing, in listing order. */
  function ImageNames(listing: seq<string>): (r: seq<string>)
    ensures forall f :: f in r <==> f in listing && IsImageFile(f)
    ensures |r| <= |listing|
  {
    if listing == [] then []
    else if IsImageFile(listing[0]) then [listing[0]] + ImageNames(listing[1..])
    else ImageNames(listing[1..])
  }

  /** The filter works file by file: listing order is kept. */
  lemma {:induction false} ImageNamesAppend(a: seq<string>, b: seq<string>)
    ensures ImageNames(a + b) == ImageNames(a) + ImageNames(b)
  {
    if a != [] {
      var ab := a + b;
      assert ab[0] == a[0];
      assert ab[1..] == a[1..] + b;
      ImageNamesAppend(a[1..], b);
      if IsImageFile(a[0]) {
        assert ImageNames(ab) == [a[0]] + ImageNames(a[1..] + b);
        assert ImageNames(a) == [a[0]] + ImageNames(a[1..]);
        ConcatAssoc([a[0]], ImageNames(a[1..]), ImageNames(b));
      } else {
        assert ImageNames(ab) == ImageNames(a[1..] + b);
        assert ImageNames(a) == ImageNames(a[1..]);
      }
    } else {
      assert a + b == b;
    }
  }

  /** The images of a listing. */
  function ImagesIn(imagesDir: string, listing: seq<string>): (r: seq<ImageInfo>)
    ensures |r| == |ImageNames(listing)|
    ensures forall i :: 0 <= i < |r| ==> r[i] == InfoFor(imagesDir, ImageNames(listing)[i])
  {
    var names := ImageNames(listing);
    seq(|names|, i requires 0 <= i < |names| => InfoFor(imagesDir, names[i]))
  }

  /** The image `selectImageForCaption` picks from a listing: none exactly
      when the listing holds no image file, else the first one. */
  function FirstImage(imagesDir: string, listing: seq<string>): (image: Option<ImageInfo>)
    ensures image.None? <==> ImageNames(listing) == []
    ensures image.Some? ==>
      && image.value == InfoFor(imagesDir, ImageNames(listing)[0])
      && IsImageFile(image.value.filename) && image.value.filename in listing
  {
    var names := ImageNames(listing);
    if names == [] then None else Some(InfoFor(imagesDir, names[0]))
  }

  /** An uploaded file as the upload middleware hands it over; the bytes
      themselves are not modelled. */
  datatype UploadedFile = UploadedFile(originalname: string, size: int)

  datatype UploadResult = UploadResult(filename: string, path: string, url: string, size: int)

  /** The stored name of an upload made at `now` milliseconds. */
  function StoredName(now: nat, originalname: string): string {
    Text.NatToString(now) + "_" + originalname
  }

  datatype ImageMetadata = ImageMetadata(filename: string, width: int, height: int, format: string, size: int)

  /** What the image decoder reports about a stored file. */
  datatype Probe = Probe(width: int, height: int, format: string, size: int)

  /** A listing in strictly increasing code-point order. */
  ghost predicate Sorted(files: seq<string>) {
    forall i, j :: 0 <= i < j < |files| ==> Text.Before(files[i], files[j])
  }

  lemma SortedDistinct(files: seq<string>)
    requires Sorted(files)
    ensures Distinct(files)
  {
    forall i, j | 0 <= i < j < |files| ensures files[i] != files[j] {
      Text.BeforeIrreflexive(files[i]);
    }
  }

  /** The listing once a file called `name` is stored: the name goes in at
      its place in the order, and an existing name is stored over. */
  function AddListed(files: seq<string>, name: string): (r: seq<string>)
    ensures forall f :: f in r <==> f in files || f == name
  {
    if files == [] then [name]
    else if files[0] == name then files
    else if Text.Before(name, files[0]) then [name] + files
    else [files[0]] + AddListed(files[1..], name)
  }

  /** Adding to a sorted listing keeps it sorted; a new name adds exactly
      one entry, an existing one leaves the listing as it was. */
  lemma {:induction false} AddListedSorted(files: seq<string>, name: string)
    requires Sorted(files)
    ensures Sorted(AddListed(files, name))
    ensures name in files ==> AddListed(files, name) == files
    ensures name !in files ==> multiset(AddListed(files, name)) == multiset(files) + multiset{name}
  {
    if files != [] && files[0] != name {
      if Text.Before(name, files[0]) {
        InsertFront(files, name);
      } else {
        var rest := files[1..];
        assert Sorted(rest);
        assert files == [files[0]] + rest;
        Text.BeforeTotal(name, files[0]);
        AddListedSorted(rest, name);
        ConsSorted(files[0], AddListed(rest, name));
      }
    }
  }

  /** A name before the first of a sorted listing is new, and putting it
      in front keeps the listing sorted. */
  lemma InsertFront(files: seq<string>, name: string)
    requires Sorted(files) && files != [] && Text.Before(name, files[0])
    ensures name !in files && Sorted([name] + files)
  {
    forall k | 0 <= k < |files| ensures Text.Before(name, files[k]) {
      if k > 0 {
        Text.BeforeTransitive(name, files[0], files[k]);
      }
    }
    forall k | 0 <= k < |files| ensures files[k] != name {
      Text.BeforeIrreflexive(name);
    }
    ConsSorted(name, files);
  }

  /** A name before every entry of a sorted listing can go in front. */
  lemma ConsSorted(first: string, rest: seq<string>)
    requires Sorted(rest) && forall f :: f in rest ==> Text.Before(first, f)
    ensures Sorted([first] + rest)
  {
    var r := [first] + rest;
    forall i, j | 0 <= i < j < |r| ensures Text.Before(r[i], r[j]) {
      assert r[j] == rest[j - 1];
      if i > 0 {
        assert r[i] == rest[i - 1];
      }
    }
  }

  /** Removing a name keeps a listing sorted. */
  lemma {:induction false} RemoveSorted(files: seq<string>, name: string)
    requires Sorted(files)
    ensures Sorted(Remove(files, name))
  {
    if files != [] {
      assert Sorted(files[1..]);
      RemoveSorted(files[1..], name);
      if files[0] != name {
        var tail := Remove(files[1..], name);
        var r := [files[0]] + tail;
        forall i, j | 0 <= i < j < |r| ensures Text.Before(r[i], r[j]) {
          if i == 0 {
            assert r[j] in tail;
            assert r[j] in files[1..];
          }
        }
      }
    }
  }

  /** An upload stored as "1700000000000_cat.jpg" next to "beach.png" is
      listed first, since digits come before letters. */
  lemma UploadListedFirst()
    ensures AddListed(["beach.png"], "1700000000000_cat.jpg") == ["1700000000000_cat.jpg", "beach.png"]
  {
    assert Text.Before("1700000000000_cat.jpg", "beach.png");
  }

  class ImageDirectory {
    const imagesDir: string
    var present: bool
    var files: seq<string>

    ghost predicate Valid()
      reads this
    {
      Sorted(files) && (!present ==> files == [])
    }

    constructor (imagesDir: string, present: bool, files: seq<string>)
      requires Sorted(files) && (!present ==> files == [])
      ensures Valid()
      ensures this.imagesDir == imagesDir && this.present == present && this.files == files
    {
      this.imagesDir := imagesDir;
      this.present := present;
      this.files := files;
    }

    /** `getAvailableImages`: create a missing directory and report nothing;
        otherwise the image files of the listing, in order. */
    method GetAvailableImages() returns (images: seq<ImageInfo>)
      requires Valid()
      modifies this
      ensures Valid() && present && files == old(files)
      ensures images == ImagesIn(imagesDir, files)
      ensures !old(present) ==> images == []
    {
      if !present {
        present := true;
        return [];
      }
      images := ImagesIn(imagesDir, files);
    }

    /** `selectImageForCaption`: the first available image, whatever the
        caption and keywords say. */
    method SelectImageForCaption(caption: Option<string>, keywords: seq<string>) returns (image: Option<ImageInfo>)
      requires Valid()
      modifies this
      ensures Valid() && present && files == old(files)
      ensures image == FirstImage(imagesDir, files)
    {
      var available := GetAvailableImages();
      if |available| == 0 {
        return None;
      }
      var selected := available[0];
      image := Some(ImageInfo(selected.filename, selected.path, selected.url));
    }

    /** `uploadImage`: reject a missing file, otherwise store it as
        `<now>_<originalname>` (replacing a file of that name, and listed at
        its place in the order) and resize it
        in place; `resizeFailure` is the message of a failed resize, after
        which the stored file stays. */
    method UploadImage(file: Option<UploadedFile>, now: nat, resizeFailure: Option<string>)
      returns (r: Result<UploadResult, string>)
      requires Valid()
      modifies this
      ensures Valid()
      ensures file.None? ==> r == Err(UploadErrorPrefix + NoFileError) && present == old(present) && files == old(files)
      ensures file.Some? ==>
        var name := StoredName(now, file.value.originalname);
        && present
        && files == AddListed(old(files), name)
        && multiset(files) == multiset(old(files)) + (if name in old(files) then multiset{} else multiset{name})
        && (resizeFailure.Some? ==> r == Err(UploadErrorPrefix + resizeFailure.value))
        && (resizeFailure.None? ==> r == Ok(UploadResult(name, imagesDir + "/" + name, ImagesUrlPrefix + name, file.value.size)))
    {
      if file.None? {
        return Err(UploadErrorPrefix + NoFileError);
      }
      present := true;
      var filename := StoredName(now, file.value.originalname);
      var filepath := imagesDir + "/" + filename;
      AddListedSorted(files, filename);
      files := AddListed(files, filename);
      if resizeFailure.Some? {
        return Err(UploadErrorPrefix + resizeFailure.value);
      }
      r := Ok(UploadResult(filename, filepath, ImagesUrlPrefix + filename, file.value.size));
    }

    /** `deleteImage`: true exactly when the file was there, and then it is
        gone and nothing else changed. */
    method DeleteImage(filename: string) returns (deleted: bool)
      requires Valid()
      modifies this
      ensures Valid() && present == old(present)
      ensures deleted <==> filename in old(files)
      ensures files == Remove(old(files), filename)
      ensures deleted ==> |files| == |old(files)| - 1
    {
      SortedDistinct(files);
      RemoveDistinct(files, filename);
      RemoveSorted(files, filename);
      if filename !in files {
        return false;
      }
      files := Remove(files, filename);
      deleted := true;
    }

    /** `getImageMetadata`: null for a file that is not there or that the
        decoder cannot read. */
    function GetImageMetadata(filename: string, probe: Result<Probe, string>): (r: Option<ImageMetadata>)
      reads this
      ensures r.Some? <==> filename in files && probe.Ok?
      ensures r.Some? ==> r.value == ImageMetadata(filename, probe.value.width, probe.value.height, probe.value.format, probe.value.size)
    {
      if filename !in files then None
      else match probe
        case Ok(p) => Some(ImageMetadata(filename, p.width, p.height, p.format, p.size))
        case Err(_) => None
    }
  }

  /** Deleting the name just uploaded leaves the listing as deleting it
      before the upload would have: the upload is undone. */
  lemma {:induction false} UploadThenDelete(files: seq<string>, name: string)
    ensures Remove(AddListed(files, name), name) == Remove(files, name)
  {
    if files != [] && files[0] != name && !Text.Before(name, files[0]) {
      UploadThenDelete(files[1..], name);
    }
  }
}
