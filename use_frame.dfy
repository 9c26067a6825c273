/** The frame hook of the browser: the preset list it offers, the names and
    location texts it writes on the frame, the canvas geometry of the
    two-column strip, the cache of merged images keyed by the current
    settings, and the state changes that pick, upload or reset a frame.
    The canvas itself, the image loading and the JPEG encoding are
    foreign: a loaded frame and the encoded image come in as parameters. */
module Frame {
  import opened Common
  import opened JsString
  import opened Layout

  // ---------------------------------------------------------------------
  // The preset list

  const UPLOAD_ID: string := "upload"

  /** The entry for an uploaded or otherwise custom frame. */
  function UploadPreset(frameName: string, frameSrc: string): FramePreset {
    FramePreset(UPLOAD_ID, if frameName != "" then "Upload: " + frameName else "Custom Frame",
                "custom", Some(frameSrc), "Frame pilihanmu")
  }

  /** Whether the list shows the upload entry: a frame name is set, or a
      custom frame with a source other than the default is active. */
  predicate ShowsUpload(frameName: string, frameMode: string, frameSrc: string) {
    frameName != "" || (frameMode == "custom" && frameSrc != "" && frameSrc != DEFAULT_FRAME_SRC)
  }

  /** `framePresets`: the fixed presets, with the upload entry inserted
      right after the first one when it is shown. */
  function PresetsFor(frameName: string, frameMode: string, frameSrc: string): (r: seq<FramePreset>)
    ensures !ShowsUpload(frameName, frameMode, frameSrc) ==> r == FRAME_PRESETS
    ensures ShowsUpload(frameName, frameMode, frameSrc) ==>
              |r| == |FRAME_PRESETS| + 1 && r[0] == FRAME_PRESETS[0]
              && r[1] == UploadPreset(frameName, frameSrc) && r[2..] == FRAME_PRESETS[1..]
  {
    if ShowsUpload(frameName, frameMode, frameSrc) then
      [FRAME_PRESETS[0], UploadPreset(frameName, frameSrc)] + FRAME_PRESETS[1..]
    else FRAME_PRESETS
  }

  /** The list always starts with the plain layout, its ids stay distinct,
      and the upload entry is in it exactly when it is shown. */
  lemma PresetsForIds(frameName: string, frameMode: string, frameSrc: string)
    ensures var r := PresetsFor(frameName, frameMode, frameSrc);
            && r[0].id == "default" && r[0].mode == "default"
            && (forall i, j :: 0 <= i < j < |r| ==> r[i].id != r[j].id)
            && ((exists i :: 0 <= i < |r| && r[i].id == UPLOAD_ID) <==> ShowsUpload(frameName, frameMode, frameSrc))
  {
    PresetsShape();
    var r := PresetsFor(frameName, frameMode, frameSrc);
    if ShowsUpload(frameName, frameMode, frameSrc) {
      assert forall i :: 2 <= i < |r| ==> r[i] == FRAME_PRESETS[i - 1];
      assert r[1].id == UPLOAD_ID;
    }
  }

  // ---------------------------------------------------------------------
  // Participants in id order

  /** A participant as the browser lists it. */
  datatype Person = Person(id: string, displayName: string, isYou: bool)

  predicate SortedById(s: seq<Person>) {
    forall i, j :: 0 <= i < j < |s| ==> Leq(s[i].id, s[j].id)
  }

  /** One step of the sort: `x` goes after every entry whose id is not
      greater, so entries with equal ids keep their order. */
  function Insert(x: Person, s: seq<Person>): (r: seq<Person>)
    ensures multiset(r) == multiset(s) + multiset{x}
    ensures |r| == |s| + 1
  {
    if s == [] then [x]
    else if Leq(s[0].id, x.id) then
      assert s == [s[0]] + s[1..];
      [s[0]] + Insert(x, s[1..])
    else [x] + s
  }

  lemma {:induction false} InsertSorted(x: Person, s: seq<Person>)
    requires SortedById(s)
    ensures SortedById(Insert(x, s))
    decreases |s|
  {
    if s == [] {
    } else if Leq(s[0].id, x.id) {
      var t := Insert(x, s[1..]);
      InsertSorted(x, s[1..]);
      assert Insert(x, s) == [s[0]] + t;
      forall j | 0 <= j < |t| ensures Leq(s[0].id, t[j].id) {
        assert t[j] in multiset(t);
        if t[j] != x {
          assert t[j] in multiset(s[1..]);
          var k :| 0 <= k < |s[1..]| && s[1..][k] == t[j];
          assert s[k + 1] == t[j];
        }
      }
      SortedCons(s[0], t);
    } else {
      LeqTotal(s[0].id, x.id);
      forall j | 0 <= j < |s| ensures Leq(x.id, s[j].id) {
        LeqTransitive(x.id, s[0].id, s[j].id);
      }
      SortedCons(x, s);
    }
  }

  /** An entry no greater than any of a sorted list goes in front. */
  lemma SortedCons(p: Person, t: seq<Person>)
    requires SortedById(t) && forall j :: 0 <= j < |t| ==> Leq(p.id, t[j].id)
    ensures SortedById([p] + t)
  {
    forall i, j | 0 <= i < j < |[p] + t| ensures Leq(([p] + t)[i].id, ([p] + t)[j].id) {
      assert ([p] + t)[j] == t[j - 1];
      if i > 0 {
        assert ([p] + t)[i] == t[i - 1];
      }
    }
  }

  /** `[...participants].sort((a, b) => a.id.localeCompare(b.id))`, with
      the code-point order standing for the locale order; the sort is
      stable, as `Array.prototype.sort` is. */
  function SortById(ps: seq<Person>): (r: seq<Person>)
    ensures multiset(r) == multiset(ps)
    ensures |r| == |ps|
  {
    if ps == [] then []
    else
      assert ps == ps[..|ps| - 1] + [ps[|ps| - 1]];
      Insert(ps[|ps| - 1], SortById(ps[..|ps| - 1]))
  }

  lemma {:induction false} SortByIdSorted(ps: seq<Person>)
    ensures SortedById(SortById(ps))
    decreases |ps|
  {
    if ps != [] {
      SortByIdSorted(ps[..|ps| - 1]);
      InsertSorted(ps[|ps| - 1], SortById(ps[..|ps| - 1]));
    }
  }

  /** The first of the sorted list has an id no greater than anyone's. */
  lemma SortedFirstIsSmallest(ps: seq<Person>)
    requires ps != []
    ensures var s := SortById(ps);
            forall p :: p in ps ==> Leq(s[0].id, p.id)
  {
    var s := SortById(ps);
    SortByIdSorted(ps);
    forall p | p in ps ensures Leq(s[0].id, p.id) {
      assert p in multiset(ps);
      assert p in multiset(s);
      var k :| 0 <= k < |s| && s[k] == p;
      if k == 0 {
        LessIrreflexive(p.id);
      }
    }
  }

  // ---------------------------------------------------------------------
  // The names and location texts on the frame

  datatype Sides = Sides(left: string, right: string)

  /** `getDefaultFrameNames`: the participant with the smallest id is
      named on the right, the next one on the left, each trimmed; a
      missing participant gives `''`. */
  function DefaultFrameNames(ps: seq<Person>): (r: Sides)
    ensures var s := SortById(ps);
            && r.right == (if |s| >= 1 then Trim(s[0].displayName) else "")
            && r.left == (if |s| >= 2 then Trim(s[1].displayName) else "")
  {
    var s := SortById(ps);
    Sides(if |s| >= 2 then Trim(s[1].displayName) else "",
          if |s| >= 1 then Trim(s[0].displayName) else "")
  }

  /** The right-hand name is that of a participant whose id is the
      smallest; without participants both names are empty, and with one
      the left name is. */
  lemma DefaultFrameNamesMeaning(ps: seq<Person>)
    ensures ps == [] ==> DefaultFrameNames(ps) == Sides("", "")
    ensures |ps| == 1 ==> DefaultFrameNames(ps) == Sides("", Trim(ps[0].displayName))
    ensures ps != [] ==> exists p :: p in ps && DefaultFrameNames(ps).right == Trim(p.displayName)
                                      && forall q :: q in ps ==> Leq(p.id, q.id)
  {
    if ps != [] {
      var s := SortById(ps);
      SortedFirstIsSmallest(ps);
      assert s[0] in multiset(ps);
      if |ps| == 1 {
        assert multiset(s) == multiset{ps[0]};
        assert s[0] in multiset{ps[0]};
      }
    }
  }

  /** Two participants get the same names whichever order they are listed
      in: the smaller id on the right, the larger on the left. */
  lemma TwoNames(a: Person, b: Person)
    requires Less(a.id, b.id)
    ensures DefaultFrameNames([a, b]) == Sides(Trim(b.displayName), Trim(a.displayName))
    ensures DefaultFrameNames([b, a]) == Sides(Trim(b.displayName), Trim(a.displayName))
  {
    LessAsymmetric(a.id, b.id);
    assert Leq(a.id, b.id) && !Leq(b.id, a.id);
    assert SortById([a]) == [a] by {
      assert [a][..0] == [];
    }
    assert SortById([b]) == [b] by {
      assert [b][..0] == [];
    }
    assert Insert(b, [a]) == [a, b] by {
      assert [a][1..] == [];
    }
    assert Insert(a, [b]) == [a, b];
    assert SortById([a, b]) == [a, b] by {
      assert [a, b][..1] == [a];
    }
    assert SortById([b, a]) == [a, b] by {
      assert [b, a][..1] == [b];
    }
  }

  /** A participant's resolved place; a missing member is `None`. */
  datatype Place = Place(city: Option<string>, country: Option<string>)

  /** The key `locationsById[id]` reads: an undefined id is looked up as
      the property name `"undefined"`. */
  function LocationKey(id: Option<string>): string {
    if id.Some? then id.value else "undefined"
  }

  /** `getAutoLocationString`: `"city, country"` when both are set after
      trimming, the one that is set otherwise, and `''` when neither is or
      the id has no place. */
  function AutoLocationString(id: Option<string>, places: map<string, Place>): (r: string)
    ensures LocationKey(id) !in places ==> r == ""
    ensures LocationKey(id) in places ==>
              var c := Trim(places[LocationKey(id)].city.GetOr(""));
              var k := Trim(places[LocationKey(id)].country.GetOr(""));
              && (c != "" && k != "" ==> r == c + ", " + k)
              && (c != "" && k == "" ==> r == c)
              && (c == "" ==> r == k)
  {
    var key := LocationKey(id);
    if key !in places then ""
    else
      var city := Trim(places[key].city.GetOr(""));
      var country := Trim(places[key].country.GetOr(""));
      if city != "" && country != "" then city + ", " + country
      else if city != "" then city
      else if country != "" then country
      else ""
  }

  /** The text is empty exactly when the id has no place or both of its
      members are missing or blank. */
  lemma AutoLocationBlank(id: Option<string>, places: map<string, Place>)
    ensures AutoLocationString(id, places) == "" <==>
              LocationKey(id) !in places
              || (AllSpace(places[LocationKey(id)].city.GetOr(""))
                  && AllSpace(places[LocationKey(id)].country.GetOr("")))
  {
    var key := LocationKey(id);
    if key in places {
      TrimEmptyIffBlank(places[key].city.GetOr(""));
      TrimEmptyIffBlank(places[key].country.GetOr(""));
    }
  }

  /** `x || y` on an optional id: an empty or missing id falls through. */
  function OrId(x: Option<string>, y: Option<string>): Option<string> {
    if x.Some? && x.value != "" then x else y
  }

  /** `sorted[i]?.id`. */
  function IdAt(s: seq<Person>, i: nat): Option<string> {
    if i < |s| then Some(s[i].id) else None
  }

  /** The two location texts an auto-fill writes: the left one for the
      second participant (or the first when alone), the right one for the
      first (or the second when the first has an empty id). */
  function AutoTexts(ps: seq<Person>, places: map<string, Place>): (r: Sides)
    ensures var s := SortById(ps);
            |s| >= 2 && s[0].id != "" && s[1].id != "" ==>
              r == Sides(AutoLocationString(Some(s[1].id), places), AutoLocationString(Some(s[0].id), places))
  {
    var s := SortById(ps);
    Sides(AutoLocationString(OrId(IdAt(s, 1), IdAt(s, 0)), places),
          AutoLocationString(OrId(IdAt(s, 0), IdAt(s, 1)), places))
  }

  /** The id of the first participant marked as this browser's user. */
  function YouId(ps: seq<Person>): (r: Option<string>)
    ensures r.None? <==> forall p :: p in ps ==> !p.isYou
    ensures r.Some? ==> exists p :: p in ps && p.isYou && p.id == r.value
  {
    if ps == [] then None
    else if ps[0].isYou then Some(ps[0].id)
    else
      assert forall p :: p in ps[1..] ==> p in ps;
      YouId(ps[1..])
  }

  /** `sorted.findIndex(p => p.id === myId) === 0`. */
  predicate IsUserA(ps: seq<Person>): (r: bool)
    ensures r ==> YouId(ps).Some? && forall p :: p in ps ==> Leq(YouId(ps).value, p.id)
  {
    var you := YouId(ps);
    var s := SortById(ps);
    if you.Some? && s != [] && s[0].id == you.value then
      SortedFirstIsSmallest(ps);
      true
    else false
  }

  /** With distinct ids, this user is user A exactly when its id is smaller
      than everyone else's. */
  lemma IsUserAMeaning(ps: seq<Person>)
    requires forall i, j :: 0 <= i < j < |ps| ==> ps[i].id != ps[j].id
    ensures IsUserA(ps) <==>
              YouId(ps).Some? && forall q :: q in ps && q.id != YouId(ps).value ==> Less(YouId(ps).value, q.id)
  {
    var you := YouId(ps);
    var s := SortById(ps);
    if you.Some? {
      var me :| me in ps && me.isYou && me.id == you.value;
      SortedFirstIsSmallest(ps);
      LessTotalIds(ps);
      if IsUserA(ps) {
        forall q | q in ps && q.id != you.value ensures Less(you.value, q.id) {
          LessTotal(you.value, q.id);
        }
      } else {
        assert s[0] in multiset(ps);
        assert s[0] in ps;
        assert s[0].id != you.value;
        LessAsymmetric(you.value, s[0].id);
      }
    }
  }

  lemma LessTotalIds(ps: seq<Person>)
    ensures forall a, b :: a in ps && b in ps && a.id != b.id ==> Less(a.id, b.id) || Less(b.id, a.id)
  {
    forall a, b | a in ps && b in ps && a.id != b.id ensures Less(a.id, b.id) || Less(b.id, a.id) {
      LessTotal(a.id, b.id);
    }
  }

  // ---------------------------------------------------------------------
  // The merge key

  /** The settings that go into `mergeKey`, in its order. */
  datatype Look = Look(sessionSeed: nat, count: nat, frameMode: string, framePresetId: string,
                       frameSrc: string, showFrameText: bool, frameColor: string,
                       frameTextColor: string, locTextLeft: string, locTextRight: string)

  /** `String(b)`. */
  function BoolString(b: bool): string {
    if b then "true" else "false"
  }

  /** `Array.prototype.join(sep)`. */
  function Join(xs: seq<string>, sep: char): string {
    if xs == [] then ""
    else if |xs| == 1 then xs[0]
    else xs[0] + [sep] + Join(xs[1..], sep)
  }

  function KeyParts(l: Look): seq<string> {
    [NatToString(l.sessionSeed), NatToString(l.count), l.frameMode, l.framePresetId, l.frameSrc,
     BoolString(l.showFrameText), l.frameColor, l.frameTextColor, l.locTextLeft, l.locTextRight]
  }

  /** `mergeKey(count)`, as written: the settings joined with `|`. */
  function MergeKey(l: Look): (r: string)
    ensures FirstSegment(r, '|') == NatToString(l.sessionSeed)
  {
    JoinHead(KeyParts(l), '|');
    Join(KeyParts(l), '|')
  }

  /** No text setting contains the separator. */
  predicate SeparatorFree(l: Look) {
    && '|' !in l.frameMode && '|' !in l.framePresetId && '|' !in l.frameSrc
    && '|' !in l.frameColor && '|' !in l.frameTextColor
    && '|' !in l.locTextLeft && '|' !in l.locTextRight
  }

  /** A joined list splits back at its first separator. */
  lemma JoinHead(xs: seq<string>, sep: char)
    requires |xs| >= 2 && sep !in xs[0]
    ensures FirstSegment(Join(xs, sep), sep) == xs[0]
    ensures Join(xs, sep)[|xs[0]| + 1..] == Join(xs[1..], sep)
  {
    var j := Join(xs, sep);
    assert j == xs[0] + [sep] + Join(xs[1..], sep);
    FirstSegmentPrefix(xs[0], sep, Join(xs[1..], sep));
  }

  lemma {:induction false} JoinSnoc(xs: seq<string>, y: string, sep: char)
    requires xs != []
    ensures Join(xs + [y], sep) == Join(xs, sep) + [sep] + y
    decreases |xs|
  {
    if |xs| >= 2 {
      assert (xs + [y])[1..] == xs[1..] + [y];
      JoinSnoc(xs[1..], y, sep);
    }
  }

  /** Joining lists of the same length whose members have no separator is
      one-to-one. */
  lemma {:induction false} JoinInjective(xs: seq<string>, ys: seq<string>, sep: char)
    requires |xs| == |ys|
    requires forall i :: 0 <= i < |xs| ==> sep !in xs[i]
    requires forall i :: 0 <= i < |ys| ==> sep !in ys[i]
    ensures Join(xs, sep) == Join(ys, sep) ==> xs == ys
    decreases |xs|
  {
    if Join(xs, sep) == Join(ys, sep) && |xs| >= 2 {
      JoinHead(xs, sep);
      JoinHead(ys, sep);
      JoinInjective(xs[1..], ys[1..], sep);
      assert xs == [xs[0]] + xs[1..] && ys == [ys[0]] + ys[1..];
    }
  }

  /** Settings without the separator in their texts have different keys
      whenever they differ: a cached image is reused only for exactly the
      settings it was drawn with. */
  lemma MergeKeyInjective(a: Look, b: Look)
    requires SeparatorFree(a) && SeparatorFree(b)
    ensures MergeKey(a) == MergeKey(b) ==> a == b
  {
    var xs, ys := KeyParts(a), KeyParts(b);
    if MergeKey(a) == MergeKey(b) {
      JoinInjective(xs, ys, '|');
      assert xs[0] == ys[0] && xs[1] == ys[1] && xs[5] == ys[5];
      NatToStringInjective(a.sessionSeed, b.sessionSeed);
      NatToStringInjective(a.count, b.count);
    }
  }

  /** With a separator in the texts two different settings share a key:
      moving a `|` from the end of the left text to the start of the right
      one leaves the key as it was, so the image cached for one is shown
      for the other. */
  lemma MergeKeyCollision(a: Look, x: string, y: string)
    requires a.locTextLeft == x + "|" && a.locTextRight == y
    ensures var b := a.(locTextLeft := x, locTextRight := "|" + y);
            a != b && MergeKey(a) == MergeKey(b)
  {
    var b := a.(locTextLeft := x, locTextRight := "|" + y);
    assert |a.locTextLeft| != |b.locTextLeft|;
    var p := KeyParts(a)[..8];
    assert KeyParts(b)[..8] == p;
    assert KeyParts(a) == p + [x + "|"] + [y];
    assert KeyParts(b) == p + [x] + ["|" + y];
    SeparatorMoves(p, x, y);
  }

  /** Moving a separator across a boundary of the joined list leaves the
      joined text as it was. */
  lemma SeparatorMoves(p: seq<string>, x: string, y: string)
    requires p != []
    ensures Join(p + [x + "|"] + [y], '|') == Join(p + [x] + ["|" + y], '|')
  {
    JoinSnoc(p, x + "|", '|');
    JoinSnoc(p + [x + "|"], y, '|');
    JoinSnoc(p, x, '|');
    JoinSnoc(p + [x], "|" + y, '|');
    assert (x + "|") + ['|'] + y == x + ['|'] + ("|" + y);
  }

  /** One entry of the corrected key: the length of the text, a colon,
      then the text itself. */
  function Framed(x: string): string {
    NatToString(|x|) + ":" + x
  }

  function FramedAll(xs: seq<string>): string {
    if xs == [] then "" else Framed(xs[0]) + FramedAll(xs[1..])
  }

  /** `mergeKey` with its evident intent, a key that tells any two
      settings apart: every part is prefixed by its length. */
  function MergeKeyCorrected(l: Look): string {
    FramedAll(KeyParts(l))
  }

  /** A framed entry parses back from the front of anything that follows
      it. */
  lemma FramedHead(x: string, rest: string)
    ensures var s := Framed(x) + rest;
            var n := FirstSegment(s, ':');
            && n == NatToString(|x|)
            && s[|n| + 1..][..|x|] == x
            && s[|n| + 1 + |x|..] == rest
  {
    var s := Framed(x) + rest;
    var d := NatToString(|x|);
    assert s == d + [':'] + (x + rest);
    FirstSegmentPrefix(d, ':', x + rest);
    assert s[|d| + 1..] == x + rest;
  }

  lemma {:induction false} FramedAllInjective(xs: seq<string>, ys: seq<string>)
    requires |xs| == |ys|
    ensures FramedAll(xs) == FramedAll(ys) ==> xs == ys
    decreases |xs|
  {
    if FramedAll(xs) == FramedAll(ys) && xs != [] {
      var s := FramedAll(xs);
      assert s == Framed(xs[0]) + FramedAll(xs[1..]);
      assert s == Framed(ys[0]) + FramedAll(ys[1..]);
      FramedHead(xs[0], FramedAll(xs[1..]));
      FramedHead(ys[0], FramedAll(ys[1..]));
      NatToStringInjective(|xs[0]|, |ys[0]|);
      FramedAllInjective(xs[1..], ys[1..]);
      assert xs == [xs[0]] + xs[1..] && ys == [ys[0]] + ys[1..];
    }
  }

  /** The corrected key tells every two different settings apart, with no
      condition on their texts. */
  lemma MergeKeyCorrectedInjective(a: Look, b: Look)
    ensures MergeKeyCorrected(a) == MergeKeyCorrected(b) ==> a == b
  {
    var xs, ys := KeyParts(a), KeyParts(b);
    if MergeKeyCorrected(a) == MergeKeyCorrected(b) {
      FramedAllInjective(xs, ys);
      assert xs[0] == ys[0] && xs[1] == ys[1] && xs[5] == ys[5];
      NatToStringInjective(a.sessionSeed, b.sessionSeed);
      NatToStringInjective(a.count, b.count);
    }
  }

  // ---------------------------------------------------------------------
  // Canvas geometry

  /** `(cellW * 2) + (gap * 3)`. */
  function TotalW(c: Canvas): (w: nat)
    ensures w == RightX(c) + c.cellW + c.gap
  {
    c.cellW * 2 + c.gap * 3
  }

  /** `(cellH * count) + (gap * (count + 1)) + headerH + footerH`. */
  function TotalH(c: Canvas, n: nat): (h: nat)
    ensures h == RowY(c, n) + c.footerH
  {
    assert n * (c.cellH + c.gap) == c.cellH * n + c.gap * n;
    c.cellH * n + c.gap * (n + 1) + c.headerH + c.footerH
  }

  /** The top of row `i`. */
  function RowY(c: Canvas, i: nat): (y: nat)
    ensures y >= c.headerH + c.gap && (i == 0 ==> y == c.headerH + c.gap)
  {
    c.headerH + c.gap + i * (c.cellH + c.gap)
  }

  /** The left edges of the two columns. */
  function LeftX(c: Canvas): nat { c.gap }
  function RightX(c: Canvas): nat { c.gap * 2 + c.cellW }

  /** Rows follow each other a gap apart, the first a gap below the
      header, and the last ends a gap and the footer above the bottom;
      the columns sit a gap from each edge and a gap apart. */
  lemma Geometry(c: Canvas, n: nat, i: nat)
    ensures RowY(c, 0) == c.headerH + c.gap
    ensures RowY(c, i + 1) == RowY(c, i) + c.cellH + c.gap
    ensures n >= 1 ==> RowY(c, n - 1) + c.cellH + c.gap + c.footerH == TotalH(c, n)
    ensures i < n ==> RowY(c, i) + c.cellH <= TotalH(c, n) - c.gap - c.footerH
    ensures LeftX(c) + c.cellW + c.gap == RightX(c)
    ensures RightX(c) + c.cellW + c.gap == TotalW(c)
  {
    if n >= 1 {
      assert (n - 1) * (c.cellH + c.gap) == n * c.cellH + n * c.gap - c.cellH - c.gap;
    }
    if i < n {
      assert i * (c.cellH + c.gap) <= (n - 1) * (c.cellH + c.gap) by {
        MulLeq(i, n - 1, c.cellH + c.gap);
      }
    }
    assert (i + 1) * (c.cellH + c.gap) == i * (c.cellH + c.gap) + c.cellH + c.gap;
  }

  lemma MulLeq(a: nat, b: nat, k: nat)
    requires a <= b
    ensures a * k <= b * k
  {
  }

  /** On the photobooth's canvas a three-shot strip is 2700 by 6230. */
  lemma StripSize()
    ensures TotalW(FRAME_CANVAS) == 2700
    ensures TotalH(FRAME_CANVAS, 1) == 2430 && TotalH(FRAME_CANVAS, 2) == 4330 && TotalH(FRAME_CANVAS, 3) == 6230
  {
  }

  // ---------------------------------------------------------------------
  // The rows

  /** The photo drawn into a cell: shot `i` of this browser or of the
      peer. */
  datatype Shot = LocalShot(i: nat) | RemoteShot(i: nat)

  /** One `drawImage` of a photo into a cell. */
  datatype Cell = Cell(shot: Shot, x: nat, y: nat, w: nat, h: nat)

  /** The peer's shot `i`, or this browser's when the peer's is missing. */
  function PeerShot(remote: seq<bool>, i: nat): Shot {
    if i < |remote| && remote[i] then RemoteShot(i) else LocalShot(i)
  }

  /** The two cells of row `i`: user A has the peer's photo on the left
      and its own on the right; the other user the other way round. */
  function RowCells(c: Canvas, i: nat, userA: bool, remote: seq<bool>): seq<Cell> {
    var y := RowY(c, i);
    if userA then [Cell(PeerShot(remote, i), LeftX(c), y, c.cellW, c.cellH), Cell(LocalShot(i), RightX(c), y, c.cellW, c.cellH)]
    else [Cell(LocalShot(i), LeftX(c), y, c.cellW, c.cellH), Cell(PeerShot(remote, i), RightX(c), y, c.cellW, c.cellH)]
  }

  /** The cells of the first `n` rows, in drawing order. */
  function Rows(c: Canvas, n: nat, userA: bool, remote: seq<bool>): (r: seq<Cell>)
    ensures |r| == 2 * n
  {
    if n == 0 then [] else Rows(c, n - 1, userA, remote) + RowCells(c, n - 1, userA, remote)
  }

  /** Row `i` of the strip is drawn as cells `2i` and `2i+1`. */
  lemma {:induction false} RowsAt(c: Canvas, n: nat, userA: bool, remote: seq<bool>, i: nat)
    requires i < n
    ensures Rows(c, n, userA, remote)[2 * i..2 * i + 2] == RowCells(c, i, userA, remote)
    decreases n
  {
    var prev := Rows(c, n - 1, userA, remote);
    if i < n - 1 {
      RowsAt(c, n - 1, userA, remote, i);
      assert Rows(c, n, userA, remote)[2 * i..2 * i + 2] == prev[2 * i..2 * i + 2];
    } else {
      assert Rows(c, n, userA, remote)[2 * i..2 * i + 2] == RowCells(c, i, userA, remote);
    }
  }

  /** Every shot of this browser is drawn in its row, on the right for
      user A and on the left for the other user; every cell lies inside
      the canvas. */
  lemma RowsPlacement(c: Canvas, n: nat, userA: bool, remote: seq<bool>, i: nat)
    requires i < n
    ensures var r := Rows(c, n, userA, remote);
            var mine := if userA then r[2 * i + 1] else r[2 * i];
            var peer := if userA then r[2 * i] else r[2 * i + 1];
            && mine == Cell(LocalShot(i), if userA then RightX(c) else LeftX(c), RowY(c, i), c.cellW, c.cellH)
            && peer == Cell(PeerShot(remote, i), if userA then LeftX(c) else RightX(c), RowY(c, i), c.cellW, c.cellH)
            && mine.x + mine.w <= TotalW(c) && mine.y + mine.h <= TotalH(c, n)
            && peer.x + peer.w <= TotalW(c) && peer.y + peer.h <= TotalH(c, n)
  {
    var r := Rows(c, n, userA, remote);
    RowsAt(c, n, userA, remote, i);
    assert r[2 * i] == r[2 * i..2 * i + 2][0];
    assert r[2 * i + 1] == r[2 * i..2 * i + 2][1];
    Geometry(c, n, i);
  }

  /** The row loop of `mergePhotos`: for each row, the shots are turned
      into images and drawn into the two cells. This browser's shot `i`
      must exist (`localCount` of them do); a missing one makes the image
      conversion throw, and the loop stops there with `ok` false. */
  method DrawRows(c: Canvas, count: nat, userA: bool, localCount: nat, remote: seq<bool>)
    returns (cells: seq<Cell>, ok: bool)
    ensures ok <==> count <= localCount
    ensures ok ==> cells == Rows(c, count, userA, remote)
    ensures !ok ==> cells == Rows(c, localCount, userA, remote)
  {
    cells := [];
    var i := 0;
    while i < count
      invariant i <= count && i <= localCount
      invariant cells == Rows(c, i, userA, remote)
    {
      if i >= localCount {
        return cells, false;
      }
      var peer := if i < |remote| && remote[i] then RemoteShot(i) else LocalShot(i);
      var rowY := c.headerH + c.gap + i * (c.cellH + c.gap);
      if userA {
        cells := cells + [Cell(peer, c.gap, rowY, c.cellW, c.cellH), Cell(LocalShot(i), c.gap * 2 + c.cellW, rowY, c.cellW, c.cellH)];
      } else {
        cells := cells + [Cell(LocalShot(i), c.gap, rowY, c.cellW, c.cellH), Cell(peer, c.gap * 2 + c.cellW, rowY, c.cellW, c.cellH)];
      }
      i := i + 1;
    }
    ok := true;
  }

  // ---------------------------------------------------------------------
  // The hook's state

  const FRAME_LOAD_ERROR: string := "Frame tidak bisa dimuat. Pastikan file PNG tersedia."
  const FRAME_READ_ERROR: string := "Gagal membaca file frame."

  /** The frame error a merge leaves: a custom frame with a source that
      failed to load sets the load error, anything else clears it. */
  function FrameErrorAfter(frameMode: string, frameSrc: string, frameLoads: bool): (e: string)
    ensures e != "" <==> frameMode == "custom" && frameSrc != "" && !frameLoads
  {
    if frameMode == "custom" && frameSrc != "" && !frameLoads then FRAME_LOAD_ERROR else ""
  }

  /** What the hook's merge step did. */
  datatype MergeOutcome =
    | CacheHit
    | Drawn(cells: seq<Cell>)
    | Failed(cells: seq<Cell>)

  class FrameState {
    var frameMode: string
    var framePresetId: string
    var frameSrc: string
    var frameName: string
    var frameError: string
    var showFrameText: bool
    var frameColor: string
    var frameTextColor: string
    var locTextLeft: string
    var locTextRight: string
    var locTextEdited: bool
    /** The merged image, as its data URL. */
    var mergedImage: Option<string>
    var lastMergeCount: nat
    var isMerging: bool
    var sessionSeed: nat
    /** `mergeCacheRef.current`: merge key to data URL. */
    var cache: map<string, string>

    /** Every setting at its initial value, the seed aside. */
    predicate AtDefaults()
      reads this
    {
      && frameMode == "default" && framePresetId == "default" && frameSrc == DEFAULT_FRAME_SRC
      && frameName == "" && frameError == "" && showFrameText
      && locTextLeft == "" && locTextRight == "" && !locTextEdited
      && mergedImage.None? && lastMergeCount == 0 && !isMerging
    }

    constructor ()
      ensures AtDefaults() && frameColor == "#000000" && frameTextColor == "#FFFFFF"
      ensures sessionSeed == 0 && cache == map[]
    {
      frameMode := "default";
      framePresetId := "default";
      frameSrc := DEFAULT_FRAME_SRC;
      frameName := "";
      frameError := "";
      showFrameText := true;
      frameColor := "#000000";
      frameTextColor := "#FFFFFF";
      locTextLeft := "";
      locTextRight := "";
      locTextEdited := false;
      mergedImage := None;
      lastMergeCount := 0;
      isMerging := false;
      sessionSeed := 0;
      cache := map[];
    }

    /** The settings `mergeKey(count)` reads now. */
    function LookFor(count: nat): (l: Look)
      reads this
      ensures l.count == count && l.sessionSeed == sessionSeed
    {
      Look(sessionSeed, count, frameMode, framePresetId, frameSrc, showFrameText,
           frameColor, frameTextColor, locTextLeft, locTextRight)
    }

    /** `framePresets` now. */
    function Presets(): seq<FramePreset>
      reads this
    {
      PresetsFor(frameName, frameMode, frameSrc)
    }

    /** `mergePhotos`. A key already in the cache brings its image back
        and draws nothing. Otherwise the location texts are filled in when
        they were neither edited nor set, the frame error follows whether
        a custom frame loaded, the rows are drawn, and the encoded image
        (`rendered`) is cached under the key read at the start and shown.
        `participants` is the list handed to the call. */
    method MergePhotos(count: nat, participants: seq<Person>, localCount: nat, remote: seq<bool>,
                       places: map<string, Place>, frameLoads: bool, rendered: string)
      returns (out: MergeOutcome)
      modifies this`mergedImage, this`lastMergeCount, this`cache, this`locTextLeft, this`locTextRight,
               this`frameError, this`isMerging
      ensures var key := MergeKey(old(LookFor(count)));
              key in old(cache) ==>
                && out == CacheHit && mergedImage == Some(old(cache)[key]) && lastMergeCount == count
                && cache == old(cache) && locTextLeft == old(locTextLeft) && locTextRight == old(locTextRight)
                && frameError == old(frameError) && isMerging == old(isMerging)
      ensures var key := MergeKey(old(LookFor(count)));
              var fill := !old(locTextEdited) && old(locTextLeft) == "" && old(locTextRight) == "";
              var userA := IsUserA(participants);
              key !in old(cache) ==>
                && !isMerging
                && (fill ==> Sides(locTextLeft, locTextRight) == AutoTexts(participants, places))
                && (!fill ==> locTextLeft == old(locTextLeft) && locTextRight == old(locTextRight))
                && frameError == FrameErrorAfter(frameMode, frameSrc, frameLoads)
                && (count <= localCount ==>
                      && out == Drawn(Rows(FRAME_CANVAS, count, userA, remote))
                      && cache == old(cache)[key := rendered] && mergedImage == Some(rendered) && lastMergeCount == count)
                && (count > localCount ==>
                      && out == Failed(Rows(FRAME_CANVAS, localCount, userA, remote))
                      && cache == old(cache) && mergedImage == old(mergedImage) && lastMergeCount == old(lastMergeCount))
    {
      var key := MergeKey(LookFor(count));
      if key in cache {
        mergedImage := Some(cache[key]);
        lastMergeCount := count;
        return CacheHit;
      }
      out := Render(key, count, participants, localCount, remote, places, frameLoads, rendered);
    }

    /** The location auto-fill of `mergePhotos`: texts neither edited nor
        set are replaced by the participants' places. */
    method FillTexts(participants: seq<Person>, places: map<string, Place>)
      modifies this`locTextLeft, this`locTextRight
      ensures var fill := !locTextEdited && old(locTextLeft) == "" && old(locTextRight) == "";
              && (fill ==> Sides(locTextLeft, locTextRight) == AutoTexts(participants, places))
              && (!fill ==> locTextLeft == old(locTextLeft) && locTextRight == old(locTextRight))
    {
      if !locTextEdited && locTextLeft == "" && locTextRight == "" {
        var auto := AutoTexts(participants, places);
        locTextLeft := auto.left;
        locTextRight := auto.right;
      }
    }

    /** The drawing half of `mergePhotos`, for a key not in the cache. */
    method Render(key: string, count: nat, participants: seq<Person>, localCount: nat, remote: seq<bool>,
                  places: map<string, Place>, frameLoads: bool, rendered: string)
      returns (out: MergeOutcome)
      modifies this`mergedImage, this`lastMergeCount, this`cache, this`locTextLeft, this`locTextRight,
               this`frameError, this`isMerging
      ensures !isMerging
      ensures var fill := !old(locTextEdited) && old(locTextLeft) == "" && old(locTextRight) == "";
              && (fill ==> Sides(locTextLeft, locTextRight) == AutoTexts(participants, places))
              && (!fill ==> locTextLeft == old(locTextLeft) && locTextRight == old(locTextRight))
      ensures frameError == FrameErrorAfter(frameMode, frameSrc, frameLoads)
      ensures count <= localCount ==>
                && out == Drawn(Rows(FRAME_CANVAS, count, IsUserA(participants), remote))
                && cache == old(cache)[key := rendered] && mergedImage == Some(rendered) && lastMergeCount == count
      ensures count > localCount ==>
                && out == Failed(Rows(FRAME_CANVAS, localCount, IsUserA(participants), remote))
                && unchanged(this`cache, this`mergedImage, this`lastMergeCount)
    {
      isMerging := true;
      FillTexts(participants, places);
      frameError := FrameErrorAfter(frameMode, frameSrc, frameLoads);
      var userA := IsUserA(participants);
      var cells, ok := DrawRows(FRAME_CANVAS, count, userA, localCount, remote);
      out := Keep(key, count, cells, ok, rendered);
      isMerging := false;
    }

    /** The end of `mergePhotos`: when every row was drawn, the encoded
        image is cached under the key and shown. */
    method Keep(key: string, count: nat, cells: seq<Cell>, ok: bool, rendered: string) returns (out: MergeOutcome)
      modifies this`cache, this`mergedImage, this`lastMergeCount
      ensures ok ==> out == Drawn(cells) && cache == old(cache)[key := rendered] && mergedImage == Some(rendered)
                     && lastMergeCount == count
      ensures !ok ==> out == Failed(cells) && unchanged(this`cache, this`mergedImage, this`lastMergeCount)
    {
      if ok {
        cache := cache[key := rendered];
        mergedImage := Some(rendered);
        lastMergeCount := count;
        out := Drawn(cells);
      } else {
        out := Failed(cells);
      }
    }

    /** `handleFrameUpload`: without a file nothing happens; a file read
        makes it the custom `upload` frame and empties the cache; a failed
        read only sets the error. */
    method HandleFrameUpload(file: Option<string>, readOk: bool, dataUrl: string)
      modifies this`frameSrc, this`frameName, this`frameMode, this`framePresetId, this`frameError, this`cache
      ensures file.None? ==> frameSrc == old(frameSrc) && frameName == old(frameName) && frameMode == old(frameMode)
                             && framePresetId == old(framePresetId) && frameError == old(frameError) && cache == old(cache)
      ensures file.Some? && readOk ==>
                && frameSrc == dataUrl && frameName == file.value && frameMode == "custom"
                && framePresetId == UPLOAD_ID && frameError == "" && cache == map[]
      ensures file.Some? && !readOk ==>
                && frameSrc == old(frameSrc) && frameName == old(frameName) && frameMode == old(frameMode)
                && framePresetId == old(framePresetId) && frameError == FRAME_READ_ERROR && cache == old(cache)
    {
      if file.None? {
        return;
      }
      if readOk {
        frameSrc := dataUrl;
        frameName := file.value;
        frameMode := "custom";
        framePresetId := UPLOAD_ID;
        frameError := "";
        cache := map[];
      } else {
        frameError := FRAME_READ_ERROR;
      }
    }

    /** `selectFramePreset`: the plain preset switches the frame off; a
        custom one switches it on with its image, if it has one, and
        forgets an uploaded file name unless it is the upload entry. Either
        way the cache is emptied. */
    method SelectFramePreset(preset: Option<FramePreset>)
      modifies this`frameSrc, this`frameName, this`frameMode, this`framePresetId, this`frameError, this`cache
      ensures preset.None? ==> framePresetId == old(framePresetId) && frameMode == old(frameMode)
                               && frameSrc == old(frameSrc) && frameName == old(frameName)
                               && frameError == old(frameError) && cache == old(cache)
      ensures preset.Some? ==> framePresetId == preset.value.id && frameError == "" && cache == map[]
      ensures preset.Some? && preset.value.mode == "default" ==>
                frameMode == "default" && frameSrc == old(frameSrc) && frameName == old(frameName)
      ensures preset.Some? && preset.value.mode != "default" ==>
                && frameMode == "custom"
                && frameSrc == (if preset.value.src.Some? && preset.value.src.value != "" then preset.value.src.value else old(frameSrc))
                && frameName == (if preset.value.id != UPLOAD_ID then "" else old(frameName))
    {
      if preset.None? {
        return;
      }
      var p := preset.value;
      framePresetId := p.id;
      if p.mode == "default" {
        frameMode := "default";
        frameError := "";
        cache := map[];
        return;
      }
      frameMode := "custom";
      if p.src.Some? && p.src.value != "" {
        frameSrc := p.src.value;
      }
      if p.id != UPLOAD_ID {
        frameName := "";
      }
      frameError := "";
      cache := map[];
    }

    /** `resetFrame`: every setting back to its initial value, colours
        aside (they are not in its `modifies`), a new session seed and an
        empty cache. */
    method ResetFrame()
      modifies this`frameMode, this`framePresetId, this`frameSrc, this`frameName, this`frameError,
               this`showFrameText, this`locTextLeft, this`locTextRight, this`locTextEdited,
               this`mergedImage, this`lastMergeCount, this`isMerging, this`sessionSeed, this`cache
      ensures AtDefaults() && sessionSeed == old(sessionSeed) + 1 && cache == map[]
    {
      ResetSettings();
      ResetMerge();
    }

    /** The frame half of `resetFrame`. */
    method ResetSettings()
      modifies this`frameMode, this`framePresetId, this`frameSrc, this`frameName, this`frameError, this`showFrameText
      ensures frameMode == "default" && framePresetId == "default" && frameSrc == DEFAULT_FRAME_SRC
      ensures frameName == "" && frameError == "" && showFrameText
    {
      frameMode := "default";
      framePresetId := "default";
      frameSrc := DEFAULT_FRAME_SRC;
      frameName := "";
      frameError := "";
      showFrameText := true;
    }

    /** The text and merge half of `resetFrame`. */
    method ResetMerge()
      modifies this`locTextLeft, this`locTextRight, this`locTextEdited,
               this`mergedImage, this`lastMergeCount, this`isMerging, this`sessionSeed, this`cache
      ensures locTextLeft == "" && locTextRight == "" && !locTextEdited
      ensures mergedImage.None? && lastMergeCount == 0 && !isMerging
      ensures sessionSeed == old(sessionSeed) + 1 && cache == map[]
    {
      locTextLeft := "";
      locTextRight := "";
      locTextEdited := false;
      mergedImage := None;
      lastMergeCount := 0;
      isMerging := false;
      sessionSeed := sessionSeed + 1;
      cache := map[];
    }

    /** `bumpSessionSeed`: a new seed and an empty cache, nothing else. */
    method BumpSessionSeed()
      modifies this`sessionSeed, this`cache
      ensures sessionSeed == old(sessionSeed) + 1 && cache == map[]
    {
      sessionSeed := sessionSeed + 1;
      cache := map[];
    }
  }

  /** After a reset the preset list is the fixed one again. */
  lemma ResetListsFixedPresets()
    ensures PresetsFor("", "default", DEFAULT_FRAME_SRC) == FRAME_PRESETS
  {
  }

  /** A new session seed changes every key, so an image cached in an
      earlier session can never come back. */
  lemma NewSeedNewKey(a: Look, b: Look)
    requires a.sessionSeed != b.sessionSeed
    ensures MergeKey(a) != MergeKey(b)
  {
    var xs, ys := KeyParts(a), KeyParts(b);
    if MergeKey(a) == MergeKey(b) {
      JoinHead(xs, '|');
      JoinHead(ys, '|');
      NatToStringInjective(a.sessionSeed, b.sessionSeed);
    }
  }

  /** A merge that drew and cached its image is followed by a merge of the
      same count that reuses it, when the texts were not auto-filled in
      between. */
  method MergeAgainHits(f: FrameState, count: nat, participants: seq<Person>, localCount: nat,
                        remote: seq<bool>, places: map<string, Place>, rendered: string)
    requires f.locTextEdited && count <= localCount && MergeKey(f.LookFor(count)) !in f.cache
    modifies f
    ensures f.mergedImage == Some(rendered)
  {
    var first := f.MergePhotos(count, participants, localCount, remote, places, true, rendered);
    var second := f.MergePhotos(count, participants, localCount, remote, places, true, "");
    assert second == CacheHit;
  }

  /** Choosing the upload entry the list offers keeps the frame it stands
      for. */
  method SelectUploadKeepsFrame(f: FrameState)
    requires f.frameName != "" && f.frameSrc != ""
    modifies f
    ensures f.frameMode == "custom" && f.framePresetId == UPLOAD_ID
    ensures f.frameSrc == old(f.frameSrc) && f.frameName == old(f.frameName)
  {
    var list := f.Presets();
    f.SelectFramePreset(Some(list[1]));
  }
}
