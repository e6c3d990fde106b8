/** The landing-page form: a single main image, an ordered list of hero
    images whose server entries are marked `isExisting`, the list of hero
    URLs removed in this session, and the store colour with its hex check. */
module LandingForm {

  import opened Wrappers
  import opened Upload
  import Strings
  import Json

  /** The colour shown when the landing has none. */
  const DefaultColour: string := "#000000"

  /** The landing as the server returns it; absent properties are `None`. */
  datatype Landing = Landing(
    storeName: Option<string>, colourCode: Option<string>,
    image: Option<string>, heroImage: Option<seq<string>>)

  /** What the form submits to `onFinish`. */
  datatype LandingValues = LandingValues(storeName: string, colourCode: string)

  /** The entry standing for the current main image: it shows the server
      URL, carries no file and is not a deletable hero entry. */
  function MainEntry(image: Option<string>): (e: Entry)
    ensures e.url == image && e.file.None? && !e.isExisting
    ensures FirstNewFile([e]) == None
  {
    Entry(Str("-1"), "Current Image", image, None, false)
  }

  /** The entry standing for server hero image number `i`. */
  function HeroEntry(i: nat, url: string): Entry {
    Entry(Str("hero-" + Strings.NatToString(i)), "Hero Image " + Strings.NatToString(i + 1), Some(url), None, true)
  }

  /** The hero list seeded from the server URLs: one existing entry per
      URL, in order, none carrying a file. */
  function HeroEntries(urls: seq<string>): (r: seq<Entry>)
    ensures |r| == |urls|
    ensures forall i :: 0 <= i < |urls| ==> r[i].url == Some(urls[i]) && r[i].isExisting && r[i].file.None?
  {
    seq(|urls|, i requires 0 <= i < |urls| => HeroEntry(i, urls[i]))
  }

  /** `list.find(f => f.uid === uid)`: the first entry with that uid. */
  function Find(list: seq<Entry>, uid: Uid): (r: Option<Entry>)
    ensures r.Some? ==> r.value.uid == uid
    ensures r.Some? ==>
      exists i :: 0 <= i < |list| && list[i] == r.value && forall j :: 0 <= j < i ==> list[j].uid != uid
    ensures r.None? ==> forall e :: e in list ==> e.uid != uid
  {
    if list == [] then None
    else if list[0].uid == uid then Some(list[0])
    else Find(list[1..], uid)
  }

  /** The entry a hero change removes from the server: the first old entry
      with the changed uid, when it is an existing one and no entry of the
      new list has that uid. */
  function Removal(old_: seq<Entry>, new_: seq<Entry>, uid: Uid): (r: Option<Entry>)
    ensures r.Some? ==> r.value in old_ && r.value.uid == uid && r.value.isExisting
    ensures r.Some? ==> forall e :: e in new_ ==> e.uid != uid
    ensures r.None? ==>
      (forall e :: e in old_ ==> e.uid != uid) || !Find(old_, uid).value.isExisting ||
      exists e :: e in new_ && e.uid == uid
  {
    match Find(old_, uid)
    case Some(r) => if r.isExisting && Find(new_, uid).None? then Some(r) else None
    case None => None
  }

  predicate Distinct<T(==)>(s: seq<T>) {
    forall i, j :: 0 <= i < j < |s| ==> s[i] != s[j]
  }

  /** The elements of `b` at the positions `idx`, in that order. */
  function Pick(b: seq<string>, idx: seq<nat>): (r: seq<string>)
    requires forall i :: 0 <= i < |idx| ==> idx[i] < |b|
    ensures |r| == |idx|
    ensures forall i :: 0 <= i < |idx| ==> r[i] == b[idx[i]]
  {
    seq(|idx|, i requires 0 <= i < |idx| => b[idx[i]])
  }

  lemma PickAppend(b: seq<string>, x: seq<nat>, y: seq<nat>)
    requires forall i :: 0 <= i < |x| ==> x[i] < |b|
    requires forall i :: 0 <= i < |y| ==> y[i] < |b|
    ensures Pick(b, x + y) == Pick(b, x) + Pick(b, y)
  {
  }

  /** Positions below `n` pick the same from `b` as from its first `n` elements. */
  lemma PickPrefix(b: seq<string>, n: nat, idx: seq<nat>)
    requires n <= |b|
    requires forall i :: 0 <= i < |idx| ==> idx[i] < n
    ensures Pick(b, idx) == Pick(b[..n], idx)
  {
  }

  /** Dropping one position keeps the others distinct and, when the
      dropped one was the largest allowed, below it. */
  lemma DropPosition(idx: seq<nat>, p: nat, n: nat)
    requires p < |idx| && idx[p] == n
    requires forall i :: 0 <= i < |idx| ==> idx[i] <= n
    requires Distinct(idx)
    ensures var others := idx[..p] + idx[p + 1..];
      Distinct(others) && forall i :: 0 <= i < |others| ==> others[i] < n
  {
    var others := idx[..p] + idx[p + 1..];
    forall i | 0 <= i < |others| ensures others[i] < n {
      if i < p { assert others[i] == idx[i]; } else { assert others[i] == idx[i + 1]; }
    }
    forall i, j | 0 <= i < j < |others| ensures others[i] != others[j] {
      var i', j' := if i < p then i else i + 1, if j < p then j else j + 1;
      assert others[i] == idx[i'] && others[j] == idx[j'];
    }
  }

  /** Taking the last position of `b` out of the picks: the picks are the
      remaining ones, on `b` without its last element, plus that element. */
  lemma PickDropLast(b: seq<string>, idx: seq<nat>, p: nat)
    requires |b| > 0 && p < |idx| && idx[p] == |b| - 1
    requires forall i :: 0 <= i < |idx| && i != p ==> idx[i] < |b| - 1
    ensures multiset(Pick(b, idx)) ==
      multiset(Pick(b[..|b| - 1], idx[..p] + idx[p + 1..])) + multiset{b[|b| - 1]}
  {
    var n := |b| - 1;
    var rest := b[..n];
    var before, after := idx[..p], idx[p + 1..];
    assert idx == before + [n] + after;
    forall i | 0 <= i < |before| ensures before[i] < n { assert before[i] == idx[i]; }
    forall i | 0 <= i < |after| ensures after[i] < n { assert after[i] == idx[p + 1 + i]; }
    PickAppend(b, before + [n], after);
    PickAppend(b, before, [n]);
    PickAppend(rest, before, after);
    PickPrefix(b, n, before);
    PickPrefix(b, n, after);
    var x, y := Pick(rest, before), Pick(rest, after);
    assert Pick(b, [n]) == [b[n]];
    assert Pick(b, idx) == x + [b[n]] + y;
    assert Pick(rest, before + after) == x + y;
    assert multiset(x + [b[n]] + y) == multiset(x + y) + multiset{b[n]};
  }

  /** Elements taken at distinct positions never exceed what is there: a
      URL is picked at most as often as it occurs. */
  lemma {:induction false} PickWithinBaseline(b: seq<string>, idx: seq<nat>)
    requires forall i :: 0 <= i < |idx| ==> idx[i] < |b|
    requires Distinct(idx)
    ensures multiset(Pick(b, idx)) <= multiset(b)
    decreases |b|
  {
    if idx == [] {
      return;
    }
    assert idx[0] < |b|;
    var n := |b| - 1;
    var rest := b[..n];
    assert b == rest + [b[n]];
    if p :| 0 <= p < |idx| && idx[p] == n {
      DropPosition(idx, p, n);
      forall i | 0 <= i < |idx| && i != p ensures idx[i] < n {
        if i < p { assert idx[i] != idx[p]; } else { assert idx[p] != idx[i]; }
      }
      PickDropLast(b, idx, p);
      PickWithinBaseline(rest, idx[..p] + idx[p + 1..]);
    } else {
      PickPrefix(b, n, idx);
      PickWithinBaseline(rest, idx);
    }
  }

  /** Picks at distinct positions of a list without repeats have none either. */
  lemma PickDistinct(b: seq<string>, idx: seq<nat>)
    requires forall i :: 0 <= i < |idx| ==> idx[i] < |b|
    requires Distinct(idx) && Distinct(b)
    ensures Distinct(Pick(b, idx))
  {
  }

  /** One of `[0-9A-Fa-f]`. */
  predicate IsHexDigit(c: char) {
    '0' <= c <= '9' || 'A' <= c <= 'F' || 'a' <= c <= 'f'
  }

  predicate HexGroup(t: string) {
    |t| == 3 && IsHexDigit(t[0]) && IsHexDigit(t[1]) && IsHexDigit(t[2])
  }

  /** The colour rule `/^#([0-9A-F]{3}){1,2}$/i`: `#` and one or two groups of three hex digits. */
  predicate ColourPattern(s: string)
    ensures ColourPattern(s) ==> |s| == 4 || |s| == 7
  {
    |s| > 0 && s[0] == '#' && (HexGroup(s[1..]) || (|s| == 7 && HexGroup(s[1..4]) && HexGroup(s[4..])))
  }

  /** `#` followed by exactly three or six hex digits. */
  predicate IsHexColour(s: string) {
    (|s| == 4 || |s| == 7) && s[0] == '#' && forall i :: 1 <= i < |s| ==> IsHexDigit(s[i])
  }

  /** The pattern accepts exactly `#` and three or six hex digits, of either case. */
  lemma ColourPatternMeaning(s: string)
    ensures ColourPattern(s) <==> IsHexColour(s)
    ensures ColourPattern(s) <==> ColourPattern(Strings.Upper(s))
  {
    var u := Strings.Upper(s);
    if IsHexColour(s) {
      assert forall i :: 1 <= i < |s| ==> IsHexDigit(s[i]);
      if |s| == 7 {
        assert s[1..4][0] == s[1] && s[1..4][1] == s[2] && s[1..4][2] == s[3];
        assert s[4..][0] == s[4] && s[4..][1] == s[5] && s[4..][2] == s[6];
      } else {
        assert s[1..][0] == s[1] && s[1..][1] == s[2] && s[1..][2] == s[3];
      }
    }
    if ColourPattern(s) {
      if HexGroup(s[1..]) {
        assert |s| == 4;
        assert forall i :: 1 <= i < 4 ==> s[i] == s[1..][i - 1];
      } else {
        assert forall i :: 1 <= i < 4 ==> s[i] == s[1..4][i - 1];
        assert forall i :: 4 <= i < 7 ==> s[i] == s[4..][i - 4];
      }
    }
    assert forall i :: 0 <= i < |s| ==> (IsHexDigit(s[i]) <==> IsHexDigit(u[i]));
    if IsHexColour(u) {
      assert forall i :: 1 <= i < |u| ==> IsHexDigit(u[i]);
      if |u| == 7 {
        assert u[1..4][0] == u[1] && u[1..4][1] == u[2] && u[1..4][2] == u[3];
        assert u[4..][0] == u[4] && u[4..][1] == u[5] && u[4..][2] == u[6];
      } else {
        assert u[1..][0] == u[1] && u[1..][1] == u[2] && u[1..][2] == u[3];
      }
    }
    if ColourPattern(u) {
      if HexGroup(u[1..]) {
        assert |u| == 4;
        assert forall i :: 1 <= i < 4 ==> u[i] == u[1..][i - 1];
      } else {
        assert forall i :: 1 <= i < 4 ==> u[i] == u[1..4][i - 1];
        assert forall i :: 4 <= i < 7 ==> u[i] == u[4..][i - 4];
      }
    }
  }

  /** Upper-casing twice changes nothing more, and leaves no lower-case letter. */
  lemma UpperIdempotent(s: string)
    ensures Strings.Upper(Strings.Upper(s)) == Strings.Upper(s)
    ensures forall i :: 0 <= i < |s| ==> !('a' <= Strings.Upper(s)[i] <= 'z')
  {
  }

  /** The validation rules: a non-empty store name and a colour matching the pattern. */
  predicate ValuesValid(v: LandingValues)
    ensures ValuesValid(v) <==> v.storeName != "" && ColourPattern(v.colourCode)
  {
    v.storeName != "" && v.colourCode != "" && ColourPattern(v.colourCode)
  }

  /** The payload `handleFinish` assembles. */
  function LandingPayload(v: LandingValues, fileList: seq<Entry>, heroFileList: seq<Entry>, deleted: seq<string>): FormData {
    [Field("storeName", Text(v.storeName)), Field("colourCode", Text(v.colourCode))]
      + (if FirstNewFile(fileList).Some? then [Field("image", Blob(FirstNewFile(fileList).value))] else [])
      + FileParts("heroImage", heroFileList)
      + (if |deleted| > 0 then [Field("deletedHeroImages", Text(Json.StringArray(deleted)))] else [])
  }

  /** Store name and colour come first, with the submitted values. */
  lemma LandingPayloadFields(v: LandingValues, fileList: seq<Entry>, heroFileList: seq<Entry>, deleted: seq<string>)
    ensures var fd := LandingPayload(v, fileList, heroFileList, deleted);
      fd[..2] == [Field("storeName", Text(v.storeName)), Field("colourCode", Text(v.colourCode))]
  {
  }

  /** The payload holds exactly these parts, in this order: store name,
      colour, the main image when there is a new one, one part per new hero
      file, and the deletion list when there are deletions. */
  lemma LandingPayloadKeys(v: LandingValues, fileList: seq<Entry>, heroFileList: seq<Entry>, deleted: seq<string>)
    ensures var fd := LandingPayload(v, fileList, heroFileList, deleted);
      Keys(fd) ==
        ["storeName", "colourCode"]
        + (if FirstNewFile(fileList).Some? then ["image"] else [])
        + seq(|NewFiles(heroFileList)|, _ => "heroImage")
        + (if |deleted| > 0 then ["deletedHeroImages"] else [])
    ensures |LandingPayload(v, fileList, heroFileList, deleted)| ==
      2 + (if FirstNewFile(fileList).Some? then 1 else 0) + |NewFiles(heroFileList)| + (if |deleted| > 0 then 1 else 0)
  {
    var head := [Field("storeName", Text(v.storeName)), Field("colourCode", Text(v.colourCode))];
    var main: FormData := if FirstNewFile(fileList).Some? then [Field("image", Blob(FirstNewFile(fileList).value))] else [];
    var hero := FileParts("heroImage", heroFileList);
    var tail: FormData := if |deleted| > 0 then [Field("deletedHeroImages", Text(Json.StringArray(deleted)))] else [];
    assert LandingPayload(v, fileList, heroFileList, deleted) == head + main + hero + tail;
    KeysAppend(head + main + hero, tail);
    KeysAppend(head + main, hero);
    KeysAppend(head, main);
    KeysBlobs("heroImage", NewFiles(heroFileList));
    assert Keys(head) == ["storeName", "colourCode"];
    assert Keys(main) == if FirstNewFile(fileList).Some? then ["image"] else [];
    assert Keys(tail) == if |deleted| > 0 then ["deletedHeroImages"] else [];
  }

  /** An `image` part is attached only when the main list's first entry is
      a newly picked file. */
  lemma LandingPayloadImage(v: LandingValues, fileList: seq<Entry>, heroFileList: seq<Entry>, deleted: seq<string>)
    ensures var fd := LandingPayload(v, fileList, heroFileList, deleted);
      BlobsUnder(fd, "image") == (if FirstNewFile(fileList).Some? then [FirstNewFile(fileList).value] else [])
  {
    var head := [Field("storeName", Text(v.storeName)), Field("colourCode", Text(v.colourCode))];
    var main: FormData := if FirstNewFile(fileList).Some? then [Field("image", Blob(FirstNewFile(fileList).value))] else [];
    var hero := FileParts("heroImage", heroFileList);
    var tail: FormData := if |deleted| > 0 then [Field("deletedHeroImages", Text(Json.StringArray(deleted)))] else [];
    var fd := LandingPayload(v, fileList, heroFileList, deleted);
    assert fd == head + (main + hero) + tail;
    BlobsUnderBetweenTexts(head, main + hero, tail, "image");
    BlobsUnderAppend(main, hero, "image");
    BlobsUnderBlobs("heroImage", "image", NewFiles(heroFileList));
    assert BlobsUnder(hero, "image") == [];
    if main != [] {
      assert main[1..] == [];
      assert BlobsUnder(main, "image") == [FirstNewFile(fileList).value];
    } else {
      assert BlobsUnder(main, "image") == [];
    }
  }

  /** The hero parts are exactly the newly picked hero files, in list order. */
  lemma LandingPayloadHero(v: LandingValues, fileList: seq<Entry>, heroFileList: seq<Entry>, deleted: seq<string>)
    ensures BlobsUnder(LandingPayload(v, fileList, heroFileList, deleted), "heroImage") == NewFiles(heroFileList)
  {
    var head := [Field("storeName", Text(v.storeName)), Field("colourCode", Text(v.colourCode))];
    var main: FormData := if FirstNewFile(fileList).Some? then [Field("image", Blob(FirstNewFile(fileList).value))] else [];
    var hero := FileParts("heroImage", heroFileList);
    var tail: FormData := if |deleted| > 0 then [Field("deletedHeroImages", Text(Json.StringArray(deleted)))] else [];
    assert LandingPayload(v, fileList, heroFileList, deleted) == head + (main + hero) + tail;
    BlobsUnderBetweenTexts(head, main + hero, tail, "heroImage");
    BlobsUnderAppend(main, hero, "heroImage");
    BlobsUnderBlobs("heroImage", "image", NewFiles(heroFileList));
    assert BlobsUnder(hero, "heroImage") == NewFiles(heroFileList);
    if main != [] {
      assert main[1..] == [];
    }
    assert BlobsUnder(main, "heroImage") == [];
  }

  /** A `deletedHeroImages` field is present exactly when there are
      deletions; it comes last and parses back to exactly them. */
  lemma LandingPayloadDeletions(v: LandingValues, fileList: seq<Entry>, heroFileList: seq<Entry>, deleted: seq<string>)
    ensures var fd := LandingPayload(v, fileList, heroFileList, deleted);
      ("deletedHeroImages" in Keys(fd) <==> |deleted| > 0) &&
      (|deleted| > 0 ==> fd[|fd| - 1].key == "deletedHeroImages" &&
                         Json.ParseStringArray(fd[|fd| - 1].part.text) == Some(deleted))
  {
    var head := [Field("storeName", Text(v.storeName)), Field("colourCode", Text(v.colourCode))];
    var main: FormData := if FirstNewFile(fileList).Some? then [Field("image", Blob(FirstNewFile(fileList).value))] else [];
    var hero := FileParts("heroImage", heroFileList);
    var tail: FormData := if |deleted| > 0 then [Field("deletedHeroImages", Text(Json.StringArray(deleted)))] else [];
    var fd := LandingPayload(v, fileList, heroFileList, deleted);
    var body := head + main + hero;
    assert fd == body + tail;
    assert "deletedHeroImages" !in Keys(body) by {
      var k := Keys(body);
      forall i | 0 <= i < |k| ensures k[i] != "deletedHeroImages" {
        if i >= |head| + |main| {
          assert body[i] == hero[i - |head| - |main|];
        }
      }
    }
    if |deleted| > 0 {
      assert fd[|fd| - 1] == tail[0];
      assert Keys(fd)[|fd| - 1] == "deletedHeroImages";
      Json.StringArrayRoundTrip(deleted);
    } else {
      assert fd == body;
    }
  }

  /** The form's state together with the parent's two lists. */
  class LandingFormState {
    var fileList: seq<Entry>
    var heroFileList: seq<Entry>
    var deletedHeroImages: seq<string>
    var colour: string
    /** The form fields `storeName` and `colourCode`. */
    var storeName: string
    var colourCode: string
    /** The hero URLs as seeded at the last open. */
    ghost var baseline: seq<string>
    /** For each deletion, the position of its URL in `baseline`. */
    ghost var deletedIdx: seq<nat>

    /** Deletions are seeded hero URLs, each seeded entry deleted at most
        once, and an existing entry still in the list is a seeded one that
        was not deleted. */
    ghost predicate Valid()
      reads this
    {
      (forall i :: 0 <= i < |deletedIdx| ==> deletedIdx[i] < |baseline|) &&
      Distinct(deletedIdx) &&
      deletedHeroImages == Pick(baseline, deletedIdx) &&
      (forall e :: e in heroFileList && e.isExisting ==> LiveSeed(e))
    }

    ghost predicate LiveSeed(e: Entry)
      reads this
    {
      exists k :: 0 <= k < |baseline| && e == HeroEntry(k, baseline[k]) && k !in deletedIdx
    }

    constructor ()
      ensures Valid()
      ensures fileList == [] && heroFileList == [] && deletedHeroImages == []
      ensures colour == DefaultColour && storeName == "" && colourCode == ""
      ensures baseline == [] && deletedIdx == []
    {
      fileList, heroFileList, deletedHeroImages := [], [], [];
      colour := DefaultColour;
      storeName, colourCode := "", "";
      baseline, deletedIdx := [], [];
    }

    /** The effect run when the modal opens: seed from the landing, or
        clear everything for a new one. Nothing happens while closed. */
    method Seed(open: bool, landing: Option<Landing>)
      requires Valid()
      modifies this
      ensures Valid()
      ensures !open ==>
        fileList == old(fileList) && heroFileList == old(heroFileList) &&
        deletedHeroImages == old(deletedHeroImages) && colour == old(colour) &&
        storeName == old(storeName) && colourCode == old(colourCode)
      ensures open && landing.Some? ==>
        var l := landing.value;
        var c := if l.colourCode.Some? && l.colourCode.value != "" then l.colourCode.value else DefaultColour;
        fileList == [MainEntry(l.image)] &&
        heroFileList == HeroEntries(l.heroImage.GetOr([])) &&
        deletedHeroImages == [] &&
        storeName == l.storeName.GetOr("") && colourCode == c && colour == c
      ensures open && landing.None? ==>
        fileList == [] && heroFileList == [] && deletedHeroImages == [] &&
        storeName == "" && colourCode == DefaultColour && colour == DefaultColour
      ensures !open ==> baseline == old(baseline) && deletedIdx == old(deletedIdx)
      ensures open ==>
        deletedIdx == [] && baseline == (if landing.Some? then landing.value.heroImage.GetOr([]) else [])
    {
      if !open {
        return;
      }
      if landing.Some? {
        var l := landing.value;
        var c := if l.colourCode.Some? && l.colourCode.value != "" then l.colourCode.value else DefaultColour;
        storeName, colourCode := l.storeName.GetOr(""), c;
        colour := c;
        fileList := [MainEntry(l.image)];
        var urls := l.heroImage.GetOr([]);
        heroFileList := HeroEntries(urls);
        deletedHeroImages := [];
        baseline, deletedIdx := urls, [];
        forall e | e in heroFileList && e.isExisting ensures LiveSeed(e) {
          var k :| 0 <= k < |heroFileList| && heroFileList[k] == e;
          assert e == HeroEntry(k, baseline[k]);
        }
      } else {
        storeName, colourCode := "", DefaultColour;
        colour := DefaultColour;
        fileList, heroFileList, deletedHeroImages := [], [], [];
        baseline, deletedIdx := [], [];
      }
    }

    /** `handleHeroImageChange`: records the URL of an existing entry that
        left the list, and always takes the new list. The widget keeps or
        drops existing entries but never makes new ones. */
    method HandleHeroImageChange(newList: seq<Entry>, changed: Uid)
      requires Valid()
      requires forall e :: e in newList && e.isExisting ==> e in heroFileList
      modifies this
      ensures Valid()
      ensures heroFileList == newList
      ensures var r := Removal(old(heroFileList), newList, changed);
        r.Some? ==> r.value.url.Some?
      ensures var r := Removal(old(heroFileList), newList, changed);
        deletedHeroImages == old(deletedHeroImages) + (if r.Some? then [r.value.url.value] else [])
      ensures fileList == old(fileList) && colour == old(colour)
      ensures storeName == old(storeName) && colourCode == old(colourCode)
      ensures baseline == old(baseline)
    {
      var removed := Find(heroFileList, changed);
      if removed.Some? && removed.value.isExisting && Find(newList, changed).None? {
        var e := removed.value;
        assert Removal(heroFileList, newList, changed) == Some(e);
        assert LiveSeed(e);
        ghost var k :| 0 <= k < |baseline| && e == HeroEntry(k, baseline[k]) && k !in deletedIdx;
        deletedIdx := deletedIdx + [k];
        deletedHeroImages := deletedHeroImages + [e.url.value];
        assert deletedHeroImages == Pick(baseline, deletedIdx);
        forall e' | e' in newList && e'.isExisting ensures LiveSeed(e') {
          assert old(LiveSeed(e'));
          var k' :| 0 <= k' < |baseline| && e' == HeroEntry(k', baseline[k']) && k' !in old(deletedIdx);
          assert e'.uid != changed;
          assert k' != k;
        }
      } else {
        assert Removal(heroFileList, newList, changed) == None;
        forall e' | e' in newList && e'.isExisting ensures LiveSeed(e') {
          assert old(LiveSeed(e'));
        }
      }
      heroFileList := newList;
    }

    /** Whatever the sequence of opens and hero changes, the deletions are
        seeded hero URLs, none taken more often than it was seeded, and
        without repeats when the seeded URLs have none. */
    lemma DeletionsWithinBaseline()
      requires Valid()
      ensures multiset(deletedHeroImages) <= multiset(baseline)
      ensures forall u :: u in deletedHeroImages ==> u in baseline
      ensures Distinct(baseline) ==> Distinct(deletedHeroImages)
    {
      PickWithinBaseline(baseline, deletedIdx);
      if Distinct(baseline) {
        PickDistinct(baseline, deletedIdx);
      }
      forall u | u in deletedHeroImages ensures u in baseline {
        assert u in multiset(deletedHeroImages);
      }
    }

    /** The main image's `onChange`: the list is taken as given. */
    method OnMainImageChange(newList: seq<Entry>)
      modifies this`fileList
      ensures fileList == newList
    {
      fileList := newList;
    }

    /** The picker's and the text input's `onChange`: the colour is
        upper-cased into both the colour state and the form field. As the
        pattern ignores case, the field passes validation exactly when the
        typed colour would have. */
    method OnColourInput(newColour: string)
      modifies this`colour, this`colourCode
      ensures colour == Strings.Upper(newColour) && colourCode == colour
      ensures ColourPattern(colourCode) <==> ColourPattern(newColour)
    {
      var upper := Strings.Upper(newColour);
      colour := upper;
      colourCode := upper;
      ColourPatternMeaning(newColour);
    }

    /** The store-name input: the form field takes the text as typed. */
    method OnStoreNameInput(name: string)
      modifies this`storeName
      ensures storeName == name
    {
      storeName := name;
    }

    /** The values the form store holds and hands to `onFinish`. */
    function Values(): (v: LandingValues)
      reads this
      ensures v.storeName == storeName && v.colourCode == colourCode
    {
      LandingValues(storeName, colourCode)
    }

    /** `handleFinish`: the `FormData` passed to `onSubmit`. */
    method HandleFinish(v: LandingValues) returns (fd: FormData)
      ensures fd == LandingPayload(v, fileList, heroFileList, deletedHeroImages)
    {
      ghost var main: FormData :=
        if FirstNewFile(fileList).Some? then [Field("image", Blob(FirstNewFile(fileList).value))] else [];
      fd := [];
      fd := fd + [Field("storeName", Text(v.storeName))];
      fd := fd + [Field("colourCode", Text(v.colourCode))];
      if |fileList| > 0 && fileList[0].file.Some? {
        fd := fd + [Field("image", Blob(fileList[0].file.value))];
      }
      assert fd == [Field("storeName", Text(v.storeName)), Field("colourCode", Text(v.colourCode))] + main;
      fd := AppendNewFiles(fd, "heroImage", heroFileList);
      if |deletedHeroImages| > 0 {
        fd := fd + [Field("deletedHeroImages", Text(Json.StringArray(deletedHeroImages)))];
      }
    }

    /** `form.submit()`: the form store's fields are validated first;
        `onFinish` runs on them only when they pass. */
    method Submit() returns (r: Option<FormData>)
      ensures r.Some? <==> storeName != "" && ColourPattern(colourCode)
      ensures r.Some? ==> r.value == LandingPayload(Values(), fileList, heroFileList, deletedHeroImages)
    {
      var v := Values();
      if !ValuesValid(v) {
        return None;
      }
      var fd := HandleFinish(v);
      return Some(fd);
    }
  }

  /** Opening the modal on a landing and then changing the hero list: the
      deletions recorded are among the landing's hero URLs, each at most
      as often as it was seeded. */
  method OpenThenChangeHero(l: Landing, newList: seq<Entry>, changed: Uid) returns (deleted: seq<string>)
    requires forall e :: e in newList && e.isExisting ==> e in HeroEntries(l.heroImage.GetOr([]))
    ensures multiset(deleted) <= multiset(l.heroImage.GetOr([]))
    ensures |deleted| <= 1
  {
    var form := new LandingFormState();
    form.Seed(true, Some(l));
    form.HandleHeroImageChange(newList, changed);
    form.DeletionsWithinBaseline();
    deleted := form.deletedHeroImages;
  }
}
