/** What the three entity forms share: the entries of an Ant Design
    `Upload` list, the multipart payload (`FormData`) they assemble, the
    `forEach` that attaches each newly selected file, and the percentage
    shown while the payload is sent. */
module Upload {

  import opened Wrappers

  /** A file the user picked (`originFileObj`); its bytes are not modelled. */
  type FileId = nat

  /** An entry's `uid`: a number for seeded product images, a string
      elsewhere. The two never compare equal under `===`. */
  datatype Uid = Num(n: int) | Str(s: string)

  /** One entry of an upload list. A seeded entry carries the server `url`
      and no file; an entry the user picked carries a file and no url. */
  datatype Entry = Entry(uid: Uid, name: string, url: Option<string>, file: Option<FileId>, isExisting: bool)

  /** The value of one multipart field: a string or a file. */
  datatype Part = Text(text: string) | Blob(blob: FileId)

  /** One `formData.append(key, value)`. */
  datatype Field = Field(key: string, part: Part)

  /** A `FormData` object: its fields in the order they were appended. */
  type FormData = seq<Field>

  /** The files of the entries that carry one, in list order. */
  function NewFiles(list: seq<Entry>): (r: seq<FileId>)
    ensures |r| <= |list|
  {
    if list == [] then []
    else (if list[0].file.Some? then [list[0].file.value] else []) + NewFiles(list[1..])
  }

  /** One field per file, all under `key`, in order. */
  function Blobs(key: string, files: seq<FileId>): (fd: FormData)
    ensures |fd| == |files|
    ensures forall i :: 0 <= i < |files| ==> fd[i] == Field(key, Blob(files[i]))
  {
    seq(|files|, i requires 0 <= i < |files| => Field(key, Blob(files[i])))
  }

  /** What `list.forEach(f => { if (f.originFileObj) fd.append(key, f.originFileObj) })` appends. */
  function FileParts(key: string, list: seq<Entry>): (fd: FormData)
    ensures |fd| == |NewFiles(list)|
  {
    Blobs(key, NewFiles(list))
  }

  /** Splitting a list splits its new files: the parts follow list order. */
  lemma {:induction false} NewFilesAppend(a: seq<Entry>, b: seq<Entry>)
    ensures NewFiles(a + b) == NewFiles(a) + NewFiles(b)
    decreases |a|
  {
    if a == [] {
      assert a + b == b;
    } else {
      var head := if a[0].file.Some? then [a[0].file.value] else [];
      assert (a + b)[0] == a[0];
      assert (a + b)[1..] == a[1..] + b;
      calc {
        NewFiles(a + b);
        head + NewFiles(a[1..] + b);
        { NewFilesAppend(a[1..], b); }
        head + (NewFiles(a[1..]) + NewFiles(b));
        (head + NewFiles(a[1..])) + NewFiles(b);
        NewFiles(a) + NewFiles(b);
      }
    }
  }

  /** A file is attached exactly when some entry of the list carries it. */
  lemma {:induction false} NewFilesMembership(list: seq<Entry>, f: FileId)
    ensures f in NewFiles(list) <==> exists i :: 0 <= i < |list| && list[i].file == Some(f)
    decreases |list|
  {
    if list != [] {
      NewFilesMembership(list[1..], f);
      if f in NewFiles(list[1..]) {
        var i :| 0 <= i < |list[1..]| && list[1..][i].file == Some(f);
        assert list[i + 1].file == Some(f);
      }
      if exists i :: 0 <= i < |list| && list[i].file == Some(f) {
        var i :| 0 <= i < |list| && list[i].file == Some(f);
        if i > 0 {
          assert list[1..][i - 1].file == Some(f);
        }
      }
    }
  }

  /** Entries that carry no file (seeded ones) contribute no part. */
  lemma {:induction false} NewFilesOfSeeded(list: seq<Entry>)
    requires forall i :: 0 <= i < |list| ==> list[i].file.None?
    ensures NewFiles(list) == []
    decreases |list|
  {
    if list != [] {
      NewFilesOfSeeded(list[1..]);
    }
  }

  /** Every entry that carries a file contributes one part. */
  lemma {:induction false} NewFilesOfPicked(list: seq<Entry>)
    requires forall i :: 0 <= i < |list| ==> list[i].file.Some?
    ensures |NewFiles(list)| == |list|
    ensures forall i :: 0 <= i < |list| ==> NewFiles(list)[i] == list[i].file.value
    decreases |list|
  {
    if list != [] {
      NewFilesOfPicked(list[1..]);
    }
  }

  /** The `forEach` loop: appends one `key` field per entry that carries a
      file, in list order, after the fields already in `fd`. */
  method AppendNewFiles(fd: FormData, key: string, list: seq<Entry>) returns (out: FormData)
    ensures out == fd + FileParts(key, list)
  {
    out := fd;
    var i := 0;
    while i < |list|
      invariant 0 <= i <= |list|
      invariant out == fd + Blobs(key, NewFiles(list[..i]))
    {
      assert list[..i + 1] == list[..i] + [list[i]];
      NewFilesAppend(list[..i], [list[i]]);
      assert [list[i]][1..] == [];
      if list[i].file.Some? {
        out := out + [Field(key, Blob(list[i].file.value))];
      }
      i := i + 1;
    }
    assert list[..i] == list;
  }

  /** `list.length > 0 && list[0].originFileObj`: the file of the first
      entry, if it carries one; later entries are not looked at. */
  function FirstNewFile(list: seq<Entry>): (r: Option<FileId>)
    ensures r.Some? ==> |list| > 0 && list[0].file == r
    ensures r.None? ==> list == [] || list[0].file.None?
  {
    if |list| > 0 && list[0].file.Some? then list[0].file else None
  }

  /** The keys of a payload, in order. */
  function Keys(fd: FormData): (r: seq<string>)
    ensures |r| == |fd|
    ensures forall i :: 0 <= i < |fd| ==> r[i] == fd[i].key
  {
    seq(|fd|, i requires 0 <= i < |fd| => fd[i].key)
  }

  lemma KeysAppend(a: FormData, b: FormData)
    ensures Keys(a + b) == Keys(a) + Keys(b)
  {
  }

  /** Every part of `Blobs(key, files)` is under `key`. */
  lemma KeysBlobs(key: string, files: seq<FileId>)
    ensures Keys(Blobs(key, files)) == seq(|files|, _ => key)
  {
  }

  /** The files attached under `key`, in order (`formData.getAll(key)` for files). */
  function BlobsUnder(fd: FormData, key: string): seq<FileId> {
    if fd == [] then []
    else (if fd[0].key == key && fd[0].part.Blob? then [fd[0].part.blob] else []) + BlobsUnder(fd[1..], key)
  }

  lemma {:induction false} BlobsUnderAppend(a: FormData, b: FormData, key: string)
    ensures BlobsUnder(a + b, key) == BlobsUnder(a, key) + BlobsUnder(b, key)
    decreases |a|
  {
    if a == [] {
      assert a + b == b;
    } else {
      assert (a + b)[1..] == a[1..] + b;
      BlobsUnderAppend(a[1..], b, key);
    }
  }

  /** Text fields carry no file. */
  lemma {:induction false} BlobsUnderTexts(fd: FormData, key: string)
    requires forall i :: 0 <= i < |fd| ==> fd[i].part.Text?
    ensures BlobsUnder(fd, key) == []
    decreases |fd|
  {
    if fd != [] {
      BlobsUnderTexts(fd[1..], key);
    }
  }

  /** Text fields around a stretch of parts add no file to it. */
  lemma BlobsUnderBetweenTexts(head: FormData, mid: FormData, tail: FormData, key: string)
    requires forall i :: 0 <= i < |head| ==> head[i].part.Text?
    requires forall i :: 0 <= i < |tail| ==> tail[i].part.Text?
    ensures BlobsUnder(head + mid + tail, key) == BlobsUnder(mid, key)
  {
    BlobsUnderTexts(head, key);
    BlobsUnderTexts(tail, key);
    BlobsUnderAppend(head, mid, key);
    BlobsUnderAppend(head + mid, tail, key);
  }

  /** Reading the parts back under their key gives exactly the new files. */
  lemma {:induction false} BlobsUnderBlobs(key: string, other: string, files: seq<FileId>)
    ensures BlobsUnder(Blobs(key, files), key) == files
    ensures other != key ==> BlobsUnder(Blobs(key, files), other) == []
    decreases |files|
  {
    if files != [] {
      assert Blobs(key, files)[1..] == Blobs(key, files[1..]);
      BlobsUnderBlobs(key, other, files[1..]);
    }
  }

  /** `Math.round(loaded * 100 / total)`, the percentage shown while
      uploading. With `total` zero JavaScript yields NaN or Infinity,
      which is `None` here. */
  function ProgressPercent(loaded: nat, total: nat): (r: Option<int>)
    ensures r.Some? <==> total > 0
    ensures r.Some? ==> 2 * total * r.value - total <= 200 * loaded < 2 * total * r.value + total
  {
    if total == 0 then None else Some((200 * loaded + total) / (2 * total))
  }

  /** The percentage stays within 0..100 while no more than `total` bytes have gone. */
  lemma ProgressPercentBounds(loaded: nat, total: nat)
    requires 0 < total && loaded <= total
    ensures 0 <= ProgressPercent(loaded, total).value <= 100
    ensures loaded == total ==> ProgressPercent(loaded, total).value == 100
    ensures loaded == 0 ==> ProgressPercent(loaded, total).value == 0
  {
    var p := ProgressPercent(loaded, total).value;
    var t := 2 * total;
    assert t * p - total <= 200 * loaded < t * p + total;
    if p < 0 {
      MulLe(t, p, -1);
    }
    if p > 100 {
      MulLe(t, 101, p);
    }
    if loaded == total && p < 100 {
      MulLe(t, p, 99);
    }
    if loaded == 0 && p > 0 {
      MulLe(t, 1, p);
    }
  }

  /** More bytes sent never shows a smaller percentage. */
  lemma ProgressPercentMonotone(a: nat, b: nat, total: nat)
    requires 0 < total && a <= b
    ensures ProgressPercent(a, total).value <= ProgressPercent(b, total).value
  {
    var p, q := ProgressPercent(a, total).value, ProgressPercent(b, total).value;
    if p > q {
      MulLe(2 * total, q + 1, p);
    }
  }

  lemma MulLe(t: int, x: int, y: int)
    requires t > 0 && x <= y
    ensures t * x <= t * y
  {
    assert t * y - t * x == t * (y - x);
  }
}
