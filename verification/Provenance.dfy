// services/common and services/extraction: evidence checking and the fact store it feeds.
module Provenance {
  import opened Prelude

  // A value found in a locator, as JSON or a caller may give it: a whole number, a text (with what int() makes of it,
  // if anything), null, a finite or infinite number, not-a-number, or a list or object, which cannot be hashed.
  datatype LocatorValue =
    | Number(n: int)
    | Text(text: string, parsed: Option<int>)
    | Null
    | Decimal(value: real)
    | Infinite
    | NotANumber
    | Composite

  type Locator = map<string, LocatorValue>

  datatype ImageMeta = ImageMeta(width: int, height: int)

  datatype Snapshot = Snapshot(
    snapshotId: Id,
    html: Option<string>,
    text: Option<string>,
    markdown: Option<string>,
    images: map<string, ImageMeta>)

  datatype EvidenceRef = EvidenceRef(snapshotId: Id, kind: string, locator: Locator, excerpt: Option<string>)

  datatype FieldCandidate = FieldCandidate(
    field: string,
    value: Option<string>,
    confidence: Option<real>,
    evidence: seq<EvidenceRef>,
    extractor: string)

  const TEXT_SPAN := "text_span"
  const IMAGE_REGION := "image_region"

  // What int(locator[key]) does: a number, one of the errors the source expects, or an OverflowError, which it does
  // not.
  datatype Conversion = Whole(n: int) | Rejected | Overflow

  // int() cuts a number off toward zero.
  function Truncated(r: real): int { if r >= 0.0 then r.Floor else -((-r).Floor) }

  function AsInt(v: LocatorValue): Conversion {
    match v
    case Number(n) => Whole(n)
    case Text(_, parsed) => if parsed == None then Rejected else Whole(parsed.value)
    case Decimal(r) => Whole(Truncated(r))
    case Infinite => Overflow
    case Null => Rejected
    case NotANumber => Rejected
    case Composite => Rejected
  }

  function IntAt(l: Locator, key: string): Conversion {
    if key in l then AsInt(l[key]) else Rejected
  }

  // The keys are converted in order, and the first one that fails decides.
  datatype Conversions = Numbers(ns: seq<int>) | Unreadable | Overflows

  function IntsAt(l: Locator, keys: seq<string>): Conversions {
    if keys == [] then Numbers([])
    else match IntAt(l, keys[0])
      case Rejected => Unreadable
      case Overflow => Overflows
      case Whole(n) =>
        match IntsAt(l, keys[1..])
        case Numbers(ns) => Numbers([n] + ns)
        case other => other
  }

  const SPAN_KEYS := ["start_char", "end_char"]
  const REGION_KEYS := ["x", "y", "width", "height"]

  lemma IntsNext(l: Locator, key: string, rest: seq<string>)
    ensures IntsAt(l, []) == Numbers([])
    ensures IntsAt(l, [key] + rest) ==
            match IntAt(l, key)
            case Rejected => Unreadable
            case Overflow => Overflows
            case Whole(n) => if IntsAt(l, rest).Numbers? then Numbers([n] + IntsAt(l, rest).ns) else IntsAt(l, rest)
  {
    assert ([key] + rest)[1..] == rest;
  }

  lemma SpanNumbers(l: Locator)
    ensures var start, end := IntAt(l, "start_char"), IntAt(l, "end_char");
            IntsAt(l, SPAN_KEYS) ==
            if start.Overflow? || (start.Whole? && end.Overflow?) then Overflows
            else if start.Whole? && end.Whole? then Numbers([start.n, end.n])
            else Unreadable
  {
    IntsNext(l, "start_char", ["end_char"]);
    IntsNext(l, "end_char", []);
  }

  lemma RegionNumbers(l: Locator)
    ensures var x, y, w, h := IntAt(l, "x"), IntAt(l, "y"), IntAt(l, "width"), IntAt(l, "height");
            && (IntsAt(l, REGION_KEYS).Numbers? <==> x.Whole? && y.Whole? && w.Whole? && h.Whole?)
            && (IntsAt(l, REGION_KEYS).Numbers? ==> IntsAt(l, REGION_KEYS).ns == [x.n, y.n, w.n, h.n])
            && (IntsAt(l, REGION_KEYS).Overflows? <==>
                x.Overflow? || (x.Whole? && (y.Overflow? || (y.Whole? && (w.Overflow? || (w.Whole? && h.Overflow?))))))
  {
    IntsNext(l, "x", ["y", "width", "height"]);
    IntsNext(l, "y", ["width", "height"]);
    IntsNext(l, "width", ["height"]);
    IntsNext(l, "height", []);
  }

  // locator.get(key)
  function Get(l: Locator, key: string): LocatorValue {
    if key in l then l[key] else Null
  }

  function SelectContent(s: Snapshot, format: LocatorValue): Option<string> {
    match format
    case Null => s.text
    case Text(t, _) =>
      if t == "text" then s.text else if t == "html" then s.html else if t == "markdown" then s.markdown else None
    case _ => None
  }

  // ---------- what it means for a snapshot to support a piece of evidence ----------

  // The locator names a non-empty span of the content it selects.
  ghost predicate InText(s: Snapshot, l: Locator) {
    var content := SelectContent(s, Get(l, "source_format"));
    var start, end := IntAt(l, "start_char"), IntAt(l, "end_char");
    content.Some? && start.Whole? && end.Whole? && 0 <= start.n < end.n <= |content.value|
  }

  ghost function Span(s: Snapshot, l: Locator): string
    requires InText(s, l)
  {
    SelectContent(s, Get(l, "source_format")).value[IntAt(l, "start_char").n..IntAt(l, "end_char").n]
  }

  // The locator names a non-empty rectangle inside an image of the snapshot.
  ghost predicate InImage(s: Snapshot, l: Locator) {
    var x, y, w, h := IntAt(l, "x"), IntAt(l, "y"), IntAt(l, "width"), IntAt(l, "height");
    var image := Get(l, "image_ref");
    && image.Text? && image.text in s.images
    && x.Whole? && y.Whole? && w.Whole? && h.Whole? && w.n > 0 && h.n > 0
    && 0 <= x.n && x.n + w.n <= s.images[image.text].width
    && 0 <= y.n && y.n + h.n <= s.images[image.text].height
  }

  // The digest of a text, if the text can be encoded (a lone surrogate cannot).
  type Digest = string -> Option<string>

  ghost predicate HashAgrees(l: Locator, span: string, sha: Digest) {
    Get(l, "text_hash").Null? || (Get(l, "text_hash").Text? && Some(Get(l, "text_hash").text) == sha(span))
  }

  ghost predicate Supports(s: Snapshot, e: EvidenceRef, sha: Digest) {
    && e.snapshotId == s.snapshotId
    && (|| (e.kind == TEXT_SPAN && InText(s, e.locator) && (e.excerpt == None || e.excerpt == Some(Span(s, e.locator)))
            && HashAgrees(e.locator, Span(s, e.locator), sha))
        || (e.kind == IMAGE_REGION && InImage(s, e.locator)))
  }

  // ---------- the same in plain terms ----------

  // The locator's source_format names this content of the snapshot; without one, or with null, it is the text.
  ghost predicate Names(s: Snapshot, l: Locator, content: string) {
    || (("source_format" !in l || l["source_format"].Null?) && s.text == Some(content))
    || ("source_format" in l && l["source_format"].Text? &&
        var format := l["source_format"].text;
        || (format == "text" && s.text == Some(content))
        || (format == "html" && s.html == Some(content))
        || (format == "markdown" && s.markdown == Some(content)))
  }

  lemma SelectMeans(s: Snapshot, l: Locator)
    ensures forall content :: Names(s, l, content) <==> SelectContent(s, Get(l, "source_format")) == Some(content)
  {
  }

  // What int() makes of a value: a whole number is kept, a text is parsed, and a decimal loses its fraction.
  ghost predicate ReadsAs(v: LocatorValue, n: int) {
    match v
    case Number(k) => n == k
    case Text(_, parsed) => parsed == Some(n)
    case Decimal(r) =>
      if r >= 0.0 then 0 <= n && n as real <= r < n as real + 1.0
      else n <= 0 && n as real - 1.0 < r <= n as real
    case _ => false
  }

  lemma AsIntMeans(v: LocatorValue)
    ensures forall n :: AsInt(v) == Whole(n) <==> ReadsAs(v, n)
    ensures AsInt(v) == Overflow <==> v == Infinite
  {
    if v.Decimal? {
      TruncatedMeans(v.value);
    }
  }

  lemma TruncatedMeans(r: real)
    ensures forall n :: n == Truncated(r) <==> ReadsAs(Decimal(r), n)
  {
    assert ReadsAs(Decimal(r), Truncated(r));
    forall n | ReadsAs(Decimal(r), n) ensures n == Truncated(r) {
      var k := Truncated(r);
      assert n as real - 1.0 < k as real < n as real + 1.0;
    }
  }

  // The span is cut out of the named content by two numbers read off the locator.
  ghost predicate CutOut(s: Snapshot, l: Locator, span: string) {
    && "start_char" in l && "end_char" in l
    && exists content, start, end ::
         && Names(s, l, content)
         && ReadsAs(l["start_char"], start)
         && ReadsAs(l["end_char"], end)
         && 0 <= start < end <= |content| && span == content[start..end]
  }

  lemma InTextMeans(s: Snapshot, l: Locator)
    ensures InText(s, l) <==> exists span :: CutOut(s, l, span)
    ensures InText(s, l) ==> forall span :: CutOut(s, l, span) <==> span == Span(s, l)
  {
    hide Names, ReadsAs;
    SelectMeans(s, l);
    if "start_char" in l { AsIntMeans(l["start_char"]); }
    if "end_char" in l { AsIntMeans(l["end_char"]); }
    if InText(s, l) {
      assert Names(s, l, SelectContent(s, Get(l, "source_format")).value);
      assert CutOut(s, l, Span(s, l));
    }
  }

  // Each pixel of the rectangle lies in the named image, and there is one.
  ghost predicate Covers(s: Snapshot, l: Locator, x: int, y: int, w: int, h: int) {
    && "image_ref" in l && l["image_ref"].Text? && l["image_ref"].text in s.images && w > 0 && h > 0
    && forall i, j :: Inside(x, y, w, h, i, j) ==>
         0 <= i < s.images[l["image_ref"].text].width && 0 <= j < s.images[l["image_ref"].text].height
  }

  ghost predicate Inside(x: int, y: int, w: int, h: int, i: int, j: int) { x <= i < x + w && y <= j < y + h }

  ghost predicate Encloses(s: Snapshot, l: Locator) {
    && "x" in l && "y" in l && "width" in l && "height" in l
    && exists x, y, w, h ::
         && ReadsAs(l["x"], x)
         && ReadsAs(l["y"], y)
         && ReadsAs(l["width"], w)
         && ReadsAs(l["height"], h)
         && Covers(s, l, x, y, w, h)
  }

  lemma InImageMeans(s: Snapshot, l: Locator)
    ensures InImage(s, l) <==> Encloses(s, l)
  {
    hide ReadsAs;
    if "x" in l && "y" in l && "width" in l && "height" in l {
      AsIntMeans(l["x"]);
      AsIntMeans(l["y"]);
      AsIntMeans(l["width"]);
      AsIntMeans(l["height"]);
      forall x, y, w, h ensures Covers(s, l, x, y, w, h) <==>
        var image := Get(l, "image_ref");
        && image.Text? && image.text in s.images && w > 0 && h > 0
        && 0 <= x && x + w <= s.images[image.text].width && 0 <= y && y + h <= s.images[image.text].height
      {
        CoversIff(s, l, x, y, w, h);
      }
    }
  }

  lemma CoversIff(s: Snapshot, l: Locator, x: int, y: int, w: int, h: int)
    ensures Covers(s, l, x, y, w, h) <==>
            var image := Get(l, "image_ref");
            && image.Text? && image.text in s.images && w > 0 && h > 0
            && 0 <= x && x + w <= s.images[image.text].width && 0 <= y && y + h <= s.images[image.text].height
  {
    if Covers(s, l, x, y, w, h) {
      assert Inside(x, y, w, h, x, y) && Inside(x, y, w, h, x + w - 1, y + h - 1);
    }
  }

  // The evidence is of this snapshot, and it is a span that reads and hashes as claimed or a part of an image.
  ghost predicate Holds(s: Snapshot, e: EvidenceRef, sha: Digest) {
    && e.snapshotId == s.snapshotId
    && (|| (&& e.kind == "text_span"
            && exists span ::
                 && CutOut(s, e.locator, span)
                 && (e.excerpt == None || e.excerpt == Some(span))
                 && HashesTo(e.locator, sha(span)))
        || (e.kind == "image_region" && Encloses(s, e.locator)))
  }

  ghost predicate HashesTo(l: Locator, digest: Option<string>) {
    "text_hash" !in l || l["text_hash"].Null? || (l["text_hash"].Text? && digest == Some(l["text_hash"].text))
  }

  lemma SupportsMeans(s: Snapshot, e: EvidenceRef, sha: Digest)
    ensures Supports(s, e, sha) <==> Holds(s, e, sha)
  {
    hide CutOut, Encloses, InText, InImage, Span;
    InTextMeans(s, e.locator);
    InImageMeans(s, e.locator);
    if InText(s, e.locator) { assert CutOut(s, e.locator, Span(s, e.locator)); }
  }

  // ---------- where validation raises ----------

  datatype Raise = UnhashableImage | InfiniteNumber | UnencodableSpan

  ghost predicate HashUnencodable(s: Snapshot, l: Locator, sha: Digest) {
    InText(s, l) && Get(l, "text_hash") != Null && sha(Span(s, l)) == None
  }

  // The exceptions that validating a piece of evidence does not catch.
  ghost function RaiseOf(s: Snapshot, e: EvidenceRef, sha: Digest): Option<Raise> {
    var l := e.locator;
    if e.snapshotId != s.snapshotId then None
    else if e.kind == TEXT_SPAN then
      if SelectContent(s, Get(l, "source_format")) == None then None
      else if IntsAt(l, SPAN_KEYS).Overflows? then Some(InfiniteNumber)
      else if HashUnencodable(s, l, sha) then Some(UnencodableSpan)
      else None
    else if e.kind == IMAGE_REGION then
      var image := Get(l, "image_ref");
      if image.Composite? then Some(UnhashableImage)
      else if image.Text? && image.text in s.images && IntsAt(l, REGION_KEYS).Overflows? then Some(InfiniteNumber)
      else None
    else None
  }

  // An infinite number is met before one that cannot be read.
  ghost predicate MeetsInfinity(l: Locator, keys: seq<string>) {
    exists i :: 0 <= i < |keys| && keys[i] in l && l[keys[i]].Infinite? && AllRead(l, keys[..i])
  }

  ghost predicate AllRead(l: Locator, keys: seq<string>) {
    forall j :: 0 <= j < |keys| ==> Reads(l, keys[j])
  }

  ghost predicate Reads(l: Locator, key: string) { key in l && exists n :: ReadsAs(l[key], n) }

  ghost predicate RaisesAs(s: Snapshot, e: EvidenceRef, sha: Digest, raise: Raise) {
    var l := e.locator;
    && e.snapshotId == s.snapshotId
    && match raise
       case UnhashableImage => e.kind == "image_region" && "image_ref" in l && l["image_ref"].Composite?
       case InfiniteNumber =>
         || (&& e.kind == "text_span"
             && (exists content :: Names(s, l, content))
             && MeetsInfinity(l, ["start_char", "end_char"]))
         || (&& e.kind == "image_region"
             && "image_ref" in l && l["image_ref"].Text? && l["image_ref"].text in s.images
             && MeetsInfinity(l, ["x", "y", "width", "height"]))
       case UnencodableSpan =>
         && e.kind == "text_span"
         && "text_hash" in l && !l["text_hash"].Null?
         && exists span :: CutOut(s, l, span) && sha(span) == None
  }

  lemma {:induction false} OverflowsMeans(l: Locator, keys: seq<string>)
    ensures IntsAt(l, keys).Overflows? <==> MeetsInfinity(l, keys)
  {
    hide ReadsAs, AllRead, MeetsInfinity;
    if keys == [] {
      NothingMet(l);
    } else {
      OverflowsMeans(l, keys[1..]);
      MeetsNext(l, keys[0], keys[1..]);
      assert keys == [keys[0]] + keys[1..];
    }
  }

  lemma NothingMet(l: Locator)
    ensures !MeetsInfinity(l, [])
  {
  }

  lemma MeetsNext(l: Locator, key: string, rest: seq<string>)
    ensures MeetsInfinity(l, [key] + rest) <==>
            IntAt(l, key) == Overflow || (IntAt(l, key).Whole? && MeetsInfinity(l, rest))
  {
    hide ReadsAs, AsInt, AllRead;
    var keys := [key] + rest;
    if key in l { AsIntMeans(l[key]); }
    ReadNext(l, key, [], []);
    assert keys[..0] == [];
    if IntAt(l, key) == Overflow { assert keys[0] == key; }
    if IntAt(l, key).Whole? && MeetsInfinity(l, rest) {
      var i :| 0 <= i < |rest| && rest[i] in l && l[rest[i]].Infinite? && AllRead(l, rest[..i]);
      assert keys[..i + 1] == [key] + rest[..i];
      ReadNext(l, key, rest[..i], keys[..i + 1]);
      assert keys[i + 1] == rest[i];
    }
    if MeetsInfinity(l, keys) {
      var i :| 0 <= i < |keys| && keys[i] in l && l[keys[i]].Infinite? && AllRead(l, keys[..i]);
      if i > 0 {
        assert keys[..i] == [key] + rest[..i - 1];
        ReadNext(l, key, rest[..i - 1], keys[..i]);
        assert rest[i - 1] == keys[i];
      }
    }
  }

  lemma ReadNext(l: Locator, key: string, rest: seq<string>, keys: seq<string>)
    ensures AllRead(l, [])
    ensures keys == [key] + rest ==> (AllRead(l, keys) <==> IntAt(l, key).Whole? && AllRead(l, rest))
  {
    hide Reads, IntAt;
    ReadsIff(l, key);
    if keys == [key] + rest {
      assert keys[0] == key && forall j :: 0 < j < |keys| ==> keys[j] == rest[j - 1];
      if AllRead(l, keys) {
        forall j | 0 <= j < |rest| ensures Reads(l, rest[j]) {
          assert keys[j + 1] == rest[j];
        }
      }
    }
  }

  lemma ReadsIff(l: Locator, key: string)
    ensures Reads(l, key) <==> IntAt(l, key).Whole?
  {
    hide ReadsAs, AsInt;
    if key in l {
      AsIntMeans(l[key]);
      if AsInt(l[key]).Whole? { assert ReadsAs(l[key], AsInt(l[key]).n); }
    }
  }

  lemma RaiseMeans(s: Snapshot, e: EvidenceRef, sha: Digest, raise: Raise)
    ensures RaiseOf(s, e, sha) == Some(raise) <==> RaisesAs(s, e, sha, raise)
  {
    hide CutOut, IntsAt, MeetsInfinity, InText, InImage, Names, Span;
    InTextMeans(s, e.locator);
    SelectMeans(s, e.locator);
    OverflowsMeans(e.locator, SPAN_KEYS);
    OverflowsMeans(e.locator, REGION_KEYS);
    TextReads(s, e.locator);
  }

  // A span that can be cut out meets no infinite number.
  lemma TextReads(s: Snapshot, l: Locator)
    ensures InText(s, l) ==> IntsAt(l, SPAN_KEYS).Numbers? && SelectContent(s, Get(l, "source_format")).Some?
  {
    SpanNumbers(l);
  }

  // ---------- the validator ----------

  datatype Issue =
    | SnapshotMismatch | UnsupportedKind
    | ContentMissing | InvalidLocator | SpanOutOfBounds | ExcerptMismatch | HashMismatch
    | ImageMissing | InvalidDimensions | RegionOutOfBounds
    | EvidenceMissing | ConfidenceMissing

  type Verdict = Result<seq<Issue>, Raise>

  // It raises exactly where RaiseOf says, and otherwise has no issue exactly when the snapshot supports the evidence.
  method ValidateEvidenceRef(e: EvidenceRef, s: Snapshot, sha: Digest) returns (r: Verdict)
    ensures r.Err? <==> RaiseOf(s, e, sha).Some?
    ensures r.Err? ==> RaiseOf(s, e, sha) == Some(r.error)
    ensures r.Ok? ==> (r.value == [] <==> Supports(s, e, sha))
    ensures e.snapshotId != s.snapshotId ==> r == Ok([SnapshotMismatch])
    ensures r == Ok([]) <==> Holds(s, e, sha)
    ensures r.Err? ==> RaisesAs(s, e, sha, r.error)
    ensures r.Ok? ==> forall raise :: !RaisesAs(s, e, sha, raise)
  {
    hide Holds, RaisesAs;
    SupportsMeans(s, e, sha);
    if Supports(s, e, sha) { SupportedNeverRaises(s, e, sha); }
    forall raise ensures RaiseOf(s, e, sha) == Some(raise) <==> RaisesAs(s, e, sha, raise) {
      RaiseMeans(s, e, sha, raise);
    }
    if e.snapshotId != s.snapshotId { return Ok([SnapshotMismatch]); }
    if e.kind == TEXT_SPAN {
      r := ValidateSpan(e, s, sha);
    } else if e.kind == IMAGE_REGION {
      r := ValidateRegion(e, s);
    } else {
      r := Ok([UnsupportedKind]);
    }
  }

  method ValidateSpan(e: EvidenceRef, s: Snapshot, sha: Digest) returns (r: Verdict)
    ensures var content := SelectContent(s, Get(e.locator, "source_format"));
            && (r == Err(InfiniteNumber) <==> content.Some? && IntsAt(e.locator, SPAN_KEYS).Overflows?)
            && (r == Err(UnencodableSpan) <==> HashUnencodable(s, e.locator, sha))
            && (r.Ok? ==> (ContentMissing in r.value <==> content == None))
    ensures r.Err? ==> r.error != UnhashableImage
    ensures r.Ok? ==>
              (r.value == [] <==> InText(s, e.locator) && (e.excerpt == None || e.excerpt == Some(Span(s, e.locator)))
                                  && HashAgrees(e.locator, Span(s, e.locator), sha))
    ensures r.Ok? && !InText(s, e.locator) ==> |r.value| == 1
    ensures r.Ok? && InText(s, e.locator) ==>
              && (ExcerptMismatch in r.value <==> e.excerpt != None && e.excerpt.value != Span(s, e.locator))
              && (HashMismatch in r.value <==> !HashAgrees(e.locator, Span(s, e.locator), sha))
              && forall x :: x in r.value ==> x == ExcerptMismatch || x == HashMismatch
  {
    SpanNumbers(e.locator);
    var content := SelectContent(s, Get(e.locator, "source_format"));
    if content == None { return Ok([ContentMissing]); }
    var numbers := IntsAt(e.locator, SPAN_KEYS);
    if numbers.Overflows? { return Err(InfiniteNumber); }
    if numbers.Unreadable? { return Ok([InvalidLocator]); }
    var start, end := numbers.ns[0], numbers.ns[1];
    if start < 0 || end < 0 || start >= end || end > |content.value| { return Ok([SpanOutOfBounds]); }
    var issues := [];
    var span := content.value[start..end];
    if e.excerpt != None && e.excerpt.value != span { issues := issues + [ExcerptMismatch]; }
    var hash := Get(e.locator, "text_hash");
    if hash != Null {
      var computed := sha(span);
      if computed == None { return Err(UnencodableSpan); }
      if !(hash.Text? && hash.text == computed.value) { issues := issues + [HashMismatch]; }
    }
    r := Ok(issues);
  }

  method ValidateRegion(e: EvidenceRef, s: Snapshot) returns (r: Verdict)
    ensures var image := Get(e.locator, "image_ref");
            && (r == Err(UnhashableImage) <==> image.Composite?)
            && (r == Err(InfiniteNumber) <==>
                image.Text? && image.text in s.images && IntsAt(e.locator, REGION_KEYS).Overflows?)
    ensures r.Err? ==> r.error != UnencodableSpan
    ensures r.Ok? ==> (r.value == [] <==> InImage(s, e.locator))
    ensures var image := Get(e.locator, "image_ref");
            r.Ok? ==> (ImageMissing in r.value <==> !(image.Text? && image.text in s.images))
    ensures r.Ok? && (ImageMissing in r.value || InvalidLocator in r.value) ==> |r.value| == 1
    ensures r.Ok? && ImageMissing !in r.value ==>
              (InvalidLocator in r.value <==> IntsAt(e.locator, REGION_KEYS).Unreadable?)
    ensures var x, y := IntAt(e.locator, "x"), IntAt(e.locator, "y");
            var w, h := IntAt(e.locator, "width"), IntAt(e.locator, "height");
            r.Ok? && ImageMissing !in r.value && InvalidLocator !in r.value ==>
              var image := s.images[Get(e.locator, "image_ref").text];
              && x.Whole? && y.Whole? && w.Whole? && h.Whole?
              && (InvalidDimensions in r.value <==> w.n <= 0 || h.n <= 0)
              && (RegionOutOfBounds in r.value <==>
                  x.n < 0 || y.n < 0 || x.n + w.n > image.width || y.n + h.n > image.height)
  {
    RegionNumbers(e.locator);
    var image := Get(e.locator, "image_ref");
    if image.Composite? { return Err(UnhashableImage); }
    if !(image.Text? && image.text in s.images) { return Ok([ImageMissing]); }
    var meta := s.images[image.text];
    var numbers := IntsAt(e.locator, REGION_KEYS);
    if numbers.Overflows? { return Err(InfiniteNumber); }
    if numbers.Unreadable? { return Ok([InvalidLocator]); }
    var x, y, w, h := numbers.ns[0], numbers.ns[1], numbers.ns[2], numbers.ns[3];
    var issues := [];
    if w <= 0 || h <= 0 { issues := issues + [InvalidDimensions]; }
    if x < 0 || y < 0 || x + w > meta.width || y + h > meta.height { issues := issues + [RegionOutOfBounds]; }
    r := Ok(issues);
  }

  // ---------- the store ----------

  datatype EvidenceRecord = EvidenceRecord(evidenceId: Id, snapshotId: Id, kind: string, locator: Locator,
                                           excerpt: Option<string>)

  datatype FactRecord = FactRecord(factId: Id, field: string, value: Option<string>, confidence: Option<real>,
                                   extractor: string)

  datatype Link = Link(factId: Id, evidenceId: Id, rank: nat)

  // Whichever exception the store raises.
  datatype StoreError = EvidenceInvalid | FactInvalid

  // The store's own checks of a locator, weaker than the validator's: it does not see the snapshot.
  predicate LocatorAccepted(kind: string, l: Locator) {
    if kind == TEXT_SPAN then
      var start, end := IntAt(l, "start_char"), IntAt(l, "end_char");
      start.Whole? && end.Whole? && 0 <= start.n < end.n
    else
      && kind == IMAGE_REGION && "x" in l && "y" in l
      && IntAt(l, "width").Whole? && IntAt(l, "height").Whole? && IntAt(l, "width").n > 0 && IntAt(l, "height").n > 0
  }

  // The same by what the values read as.
  ghost predicate WellFormed(kind: string, l: Locator) {
    || (&& kind == "text_span" && "start_char" in l && "end_char" in l
        && exists start, end :: ReadsAs(l["start_char"], start) && ReadsAs(l["end_char"], end) && 0 <= start < end)
    || (&& kind == "image_region" && "x" in l && "y" in l && "width" in l && "height" in l
        && exists w, h :: ReadsAs(l["width"], w) && ReadsAs(l["height"], h) && w > 0 && h > 0)
  }

  lemma AcceptedMeans(kind: string, l: Locator)
    ensures LocatorAccepted(kind, l) <==> WellFormed(kind, l)
  {
    hide ReadsAs;
    forall key | key in l
      ensures forall n :: AsInt(l[key]) == Whole(n) <==> ReadsAs(l[key], n)
    {
      AsIntMeans(l[key]);
    }
  }

  predicate FactAccepted(evidence: map<Id, EvidenceRecord>, value: Option<string>, confidence: Option<real>,
                         ids: seq<Id>) {
    && (value != None ==> ids != [] && confidence != None)
    && forall id :: id in ids ==> id in evidence
  }

  function LinksFor(factId: Id, ids: seq<Id>): seq<Link> {
    seq(|ids|, i requires 0 <= i < |ids| => Link(factId, ids[i], i + 1))
  }

  datatype Contents = Contents(evidence: map<Id, EvidenceRecord>, facts: map<Id, FactRecord>, links: seq<Link>)

  class FactStore {
    var evidence: map<Id, EvidenceRecord>
    var facts: map<Id, FactRecord>
    var links: seq<Link>

    function View(): Contents
      reads this
    {
      Contents(evidence, facts, links)
    }

    constructor ()
      ensures evidence == map[] && facts == map[] && links == []
    {
      evidence, facts, links := map[], map[], [];
    }

    method AddEvidence(record: EvidenceRecord) returns (r: Result<EvidenceRecord, StoreError>)
      modifies this`evidence
      ensures r.Ok? <==> LocatorAccepted(record.kind, record.locator)
      ensures r.Ok? <==> WellFormed(record.kind, record.locator)
      ensures r.Ok? ==> r.value == record && evidence == old(evidence)[record.evidenceId := record]
      ensures r.Err? ==> evidence == old(evidence)
    {
      hide WellFormed;
      AcceptedMeans(record.kind, record.locator);
      if record.kind == TEXT_SPAN {
        var start, end := IntAt(record.locator, "start_char"), IntAt(record.locator, "end_char");
        if !start.Whole? || !end.Whole? { return Err(EvidenceInvalid); }
        if start.n < 0 || end.n < 0 || start.n >= end.n { return Err(EvidenceInvalid); }
      } else if record.kind == IMAGE_REGION {
        var l := record.locator;
        if "width" !in l || "height" !in l || "x" !in l || "y" !in l {
          return Err(EvidenceInvalid);
        }
        var width, height := IntAt(record.locator, "width"), IntAt(record.locator, "height");
        if !width.Whole? || !height.Whole? { return Err(EvidenceInvalid); }
        if width.n <= 0 || height.n <= 0 { return Err(EvidenceInvalid); }
      } else {
        return Err(EvidenceInvalid);
      }
      evidence := evidence[record.evidenceId := record];
      r := Ok(record);
    }

    method AddFact(record: FactRecord, evidenceIds: seq<Id>) returns (r: Result<FactRecord, StoreError>)
      modifies this`facts, this`links
      ensures r.Ok? <==> FactAccepted(evidence, record.value, record.confidence, evidenceIds)
      ensures r.Ok? <==> && (record.value.Some? ==> evidenceIds != [] && record.confidence.Some?)
                         && forall id :: id in evidenceIds ==> id in evidence
      ensures r.Ok? ==> facts == old(facts)[record.factId := record]
      ensures r.Ok? ==> links == old(links) + LinksFor(record.factId, evidenceIds)
      ensures r.Ok? ==>
                && |links| == |old(links)| + |evidenceIds| && links[..|old(links)|] == old(links)
                && forall i :: 0 <= i < |evidenceIds| ==>
                     links[|old(links)| + i] == Link(record.factId, evidenceIds[i], i + 1)
      ensures r.Err? ==> facts == old(facts) && links == old(links)
    {
      if record.value != None {
        if evidenceIds == [] { return Err(FactInvalid); }
        if record.confidence == None { return Err(FactInvalid); }
      }
      for i := 0 to |evidenceIds|
        invariant forall j :: 0 <= j < i ==> evidenceIds[j] in evidence
        invariant facts == old(facts) && links == old(links)
      {
        if evidenceIds[i] !in evidence { return Err(FactInvalid); }
      }
      facts := facts[record.factId := record];
      for i := 0 to |evidenceIds|
        invariant facts == old(facts)[record.factId := record]
        invariant links == old(links) + LinksFor(record.factId, evidenceIds)[..i]
      {
        links := links + [Link(record.factId, evidenceIds[i], i + 1)];
      }
      r := Ok(record);
    }
  }

  // ---------- materializing ----------

  // The deterministic ids: of a piece of evidence, and of a fact within one observation.
  datatype Ids = Ids(evidenceId: EvidenceRef -> Id, factId: (string, string, string) -> Id)

  function FactIdOf(ids: Ids, c: FieldCandidate): Id
    requires c.value != None
  {
    ids.factId(c.field, c.value.value, c.extractor)
  }

  // A candidate that may become a fact: a value, a confidence, and at least one piece of evidence, all of it supported.
  ghost predicate Admitted(s: Snapshot, c: FieldCandidate, sha: Digest) {
    && c.value != None && c.confidence != None && c.evidence != []
    && forall e :: e in c.evidence ==> Supports(s, e, sha)
  }

  function RecordOf(ids: Ids, e: EvidenceRef): EvidenceRecord {
    EvidenceRecord(ids.evidenceId(e), e.snapshotId, e.kind, e.locator, e.excerpt)
  }

  function FactOf(ids: Ids, c: FieldCandidate): FactRecord
    requires c.value != None
  {
    FactRecord(FactIdOf(ids, c), c.field, c.value, c.confidence, c.extractor)
  }

  function EvidenceIds(ids: Ids, refs: seq<EvidenceRef>): seq<Id> {
    seq<Id>(|refs|, i requires 0 <= i < |refs| => ids.evidenceId(refs[i]))
  }

  function WithEvidence(evidence: map<Id, EvidenceRecord>, refs: seq<EvidenceRef>, ids: Ids): map<Id, EvidenceRecord> {
    if refs == [] then evidence
    else
      var e := refs[|refs| - 1];
      WithEvidence(evidence, refs[..|refs| - 1], ids)[ids.evidenceId(e) := RecordOf(ids, e)]
  }

  // One more candidate, if it is admitted: its evidence, its fact, and the links between them.
  ghost function With(before: Contents, s: Snapshot, c: FieldCandidate, ids: Ids, sha: Digest): Contents {
    if !Admitted(s, c, sha) then before
    else Contents(WithEvidence(before.evidence, c.evidence, ids), before.facts[FactIdOf(ids, c) := FactOf(ids, c)],
                  before.links + LinksFor(FactIdOf(ids, c), EvidenceIds(ids, c.evidence)))
  }

  // What the store holds in the end: the admitted candidates, in order.
  ghost function Stored(s: Snapshot, candidates: seq<FieldCandidate>, ids: Ids, sha: Digest): Contents {
    if candidates == [] then Contents(map[], map[], [])
    else With(Stored(s, candidates[..|candidates| - 1], ids, sha), s, candidates[|candidates| - 1], ids, sha)
  }

  // Whatever the snapshot supports passes the store's own checks.
  lemma SupportedIsAccepted(s: Snapshot, e: EvidenceRef, sha: Digest)
    requires Supports(s, e, sha)
    ensures LocatorAccepted(e.kind, e.locator)
  {
  }

  // A reference that makes the validation of this candidate raise.
  ghost predicate Reaches(s: Snapshot, c: FieldCandidate, sha: Digest, e: EvidenceRef) {
    c.value != None && c.confidence != None && e in c.evidence && RaiseOf(s, e, sha).Some?
  }

  ghost predicate Raises(s: Snapshot, c: FieldCandidate, sha: Digest) {
    exists e :: Reaches(s, c, sha, e)
  }

  lemma ReachesOnly(s: Snapshot, c: FieldCandidate, sha: Digest)
    ensures Raises(s, c, sha) <==>
            c.value != None && c.confidence != None && exists e :: e in c.evidence && RaiseOf(s, e, sha).Some?
  {
    hide RaiseOf;
    if c.value != None && c.confidence != None && exists e :: e in c.evidence && RaiseOf(s, e, sha).Some? {
      var e :| e in c.evidence && RaiseOf(s, e, sha).Some?;
      assert Reaches(s, c, sha, e);
    }
  }

  method ValidateAll(c: FieldCandidate, s: Snapshot, sha: Digest) returns (r: Verdict)
    ensures r.Err? <==> exists e :: e in c.evidence && RaiseOf(s, e, sha).Some?
    ensures r.Err? ==> exists e :: e in c.evidence && RaiseOf(s, e, sha) == Some(r.error)
    ensures r.Ok? ==> (r.value == [] <==> forall e :: e in c.evidence ==> Supports(s, e, sha))
  {
    var issues := [];
    for i := 0 to |c.evidence|
      invariant forall j :: 0 <= j < i ==> RaiseOf(s, c.evidence[j], sha) == None
      invariant issues == [] <==> forall j :: 0 <= j < i ==> Supports(s, c.evidence[j], sha)
    {
      hide RaiseOf, Supports;
      var more := ValidateEvidenceRef(c.evidence[i], s, sha);
      if more.Err? {
        assert c.evidence[i] in c.evidence;
        return Err(more.error);
      }
      issues := issues + more.value;
    }
    r := Ok(issues);
  }

  method StoreEvidence(store: FactStore, refs: seq<EvidenceRef>, s: Snapshot, ids: Ids, sha: Digest)
    returns (evidenceIds: seq<Id>)
    requires forall e :: e in refs ==> Supports(s, e, sha)
    modifies store`evidence
    ensures store.evidence == WithEvidence(old(store.evidence), refs, ids) && evidenceIds == EvidenceIds(ids, refs)
  {
    evidenceIds := [];
    for i := 0 to |refs|
      invariant store.evidence == WithEvidence(old(store.evidence), refs[..i], ids)
      invariant evidenceIds == EvidenceIds(ids, refs[..i])
    {
      hide Supports, LocatorAccepted;
      var e := refs[i];
      assert e in refs && refs[..i + 1][..i] == refs[..i];
      SupportedIsAccepted(s, e, sha);
      var r := store.AddEvidence(RecordOf(ids, e));
      assert r.Ok?;  // the store never raises
      evidenceIds := evidenceIds + [r.value.evidenceId];
    }
    assert refs[..|refs|] == refs;
  }

  // One turn of the loop. The store never raises: r.Ok? holds after each of its calls.
  method Materialize(store: FactStore, c: FieldCandidate, s: Snapshot, ids: Ids, sha: Digest) returns (r: Verdict)
    modifies store
    ensures r.Err? <==> Raises(s, c, sha)
    ensures r.Err? ==> exists e :: e in c.evidence && RaiseOf(s, e, sha) == Some(r.error)
    ensures r.Ok? ==> store.View() == With(old(store.View()), s, c, ids, sha)
    ensures r.Ok? ==> (r.value == [] <==> c.value == None || Admitted(s, c, sha))
  {
    hide Supports, RaiseOf, Reaches, WithEvidence, LinksFor;
    ReachesOnly(s, c, sha);
    if c.value == None { return Ok([]); }
    if c.evidence == [] { return Ok([EvidenceMissing]); }
    if c.confidence == None { return Ok([ConfidenceMissing]); }
    r := ValidateAll(c, s, sha);
    if r.Err? || r.value != [] { return; }
    IdsOfRefs(store.evidence, c.evidence, ids);
    var evidenceIds := StoreEvidence(store, c.evidence, s, ids, sha);
    var added := store.AddFact(FactOf(ids, c), evidenceIds);
    assert added.Ok?;
  }

  // It raises exactly when a candidate with a value and a confidence has a reference that makes its validation raise;
  // the store itself never does. Nothing is reported exactly when every candidate with a value is admitted.
  method MaterializeCandidates(s: Snapshot, candidates: seq<FieldCandidate>, ids: Ids, sha: Digest)
    returns (raised: Option<Raise>, store: FactStore, issues: seq<Issue>)
    ensures fresh(store)
    ensures raised.Some? <==> exists c :: c in candidates && Raises(s, c, sha)
    ensures raised.Some? ==> exists c, e :: c in candidates && e in c.evidence && RaiseOf(s, e, sha) == raised
    ensures raised == None ==>
              (issues == [] <==> forall c :: c in candidates && c.value != None ==> Backed(s, c, sha))
    ensures raised == None ==> store.View() == Stored(s, candidates, ids, sha)
    ensures raised == None ==>
              (issues == [] <==> forall c :: c in candidates && c.value != None ==> Admitted(s, c, sha))
  {
    store := new FactStore();
    issues := [];
    raised := None;
    hide Progress, Raises, With;
    NoProgress(s, candidates, ids, sha);
    for i := 0 to |candidates|
      invariant fresh(store) && raised == None && Progress(s, candidates, i, ids, sha, store.View(), issues == [])
    {
      ghost var before := store.View();
      var found := Materialize(store, candidates[i], s, ids, sha);
      if found.Err? {
        assert candidates[i] in candidates;
        raised := Some(found.error);
        return;
      }
      ProgressNext(s, candidates, i, ids, sha, before, issues == [], found.value == []);
      issues := issues + found.value;
    }
    AllDone(s, candidates, ids, sha, store.View(), issues == []);
    AdmittedMeans(s, sha);
  }

  // There is evidence, and all of it holds.
  ghost predicate Backed(s: Snapshot, c: FieldCandidate, sha: Digest) {
    c.value.Some? && c.confidence.Some? && c.evidence != [] && forall e :: e in c.evidence ==> Holds(s, e, sha)
  }

  lemma AdmittedMeans(s: Snapshot, sha: Digest)
    ensures forall c :: Admitted(s, c, sha) <==> Backed(s, c, sha)
  {
    hide Supports, Holds;
    forall e ensures Supports(s, e, sha) <==> Holds(s, e, sha) { SupportsMeans(s, e, sha); }
  }

  // The loop after i candidates: nothing raised, the store as it should be, and issues exactly for what was not
  // admitted.
  ghost predicate Progress(s: Snapshot, candidates: seq<FieldCandidate>, i: nat, ids: Ids, sha: Digest,
                           contents: Contents, silent: bool) {
    && i <= |candidates|
    && (forall j :: 0 <= j < i ==> !Raises(s, candidates[j], sha))
    && contents == Stored(s, candidates[..i], ids, sha)
    && (silent <==> forall j :: 0 <= j < i && candidates[j].value != None ==> Admitted(s, candidates[j], sha))
  }

  lemma NoProgress(s: Snapshot, candidates: seq<FieldCandidate>, ids: Ids, sha: Digest)
    ensures Progress(s, candidates, 0, ids, sha, Contents(map[], map[], []), true)
  {
  }

  lemma ProgressNext(s: Snapshot, candidates: seq<FieldCandidate>, i: nat, ids: Ids, sha: Digest, contents: Contents,
                     silent: bool, quiet: bool)
    requires i < |candidates| && Progress(s, candidates, i, ids, sha, contents, silent)
             && !Raises(s, candidates[i], sha)
    requires quiet <==> candidates[i].value == None || Admitted(s, candidates[i], sha)
    ensures Progress(s, candidates, i + 1, ids, sha, With(contents, s, candidates[i], ids, sha), silent && quiet)
  {
    hide Raises, Admitted, With, Stored;
    StoredNext(s, candidates, i, ids, sha);
  }

  lemma AllDone(s: Snapshot, candidates: seq<FieldCandidate>, ids: Ids, sha: Digest, contents: Contents, silent: bool)
    requires Progress(s, candidates, |candidates|, ids, sha, contents, silent)
    ensures contents == Stored(s, candidates, ids, sha) && forall c :: c in candidates ==> !Raises(s, c, sha)
    ensures silent <==> forall c :: c in candidates && c.value != None ==> Admitted(s, c, sha)
  {
    hide Raises, Admitted, Stored;
    assert candidates[..|candidates|] == candidates;
  }

  // The validator raises on a list where the image's name should be, ...
  lemma UnhashableImageRaises(s: Snapshot, sha: Digest)
    ensures var e := EvidenceRef(s.snapshotId, IMAGE_REGION, map["image_ref" := Composite], None);
            Reaches(s, FieldCandidate("f", Some("v"), Some(1.0), [e], "x"), sha, e)
  {
  }

  // ... on an infinite number where a whole one should be, given the content or image it would be looked up in, ...
  lemma InfiniteNumberRaises(s: Snapshot, sha: Digest, image: string, kind: string)
    requires kind == TEXT_SPAN || kind == IMAGE_REGION
    requires kind == TEXT_SPAN ==> s.text != None
    requires kind == IMAGE_REGION ==> image in s.images
    ensures var l := map["image_ref" := Text(image, None), "start_char" := Infinite, "x" := Infinite];
            var e := EvidenceRef(s.snapshotId, kind, l, None);
            Reaches(s, FieldCandidate("f", Some("v"), Some(1.0), [e], "x"), sha, e)
  {
    var l := map["image_ref" := Text(image, None), "start_char" := Infinite, "x" := Infinite];
    SpanNumbers(l);
    RegionNumbers(l);
  }

  // ... and on a digest to compare with when the span cannot be encoded.
  lemma UnencodableSpanRaises(s: Snapshot, sha: Digest)
    requires s.text.Some? && s.text.value != "" && sha(s.text.value[..1]) == None
    ensures var l := map["start_char" := Number(0), "end_char" := Number(1), "text_hash" := Text("0", Some(0))];
            var e := EvidenceRef(s.snapshotId, TEXT_SPAN, l, None);
            Reaches(s, FieldCandidate("f", Some("v"), Some(1.0), [e], "x"), sha, e)
  {
    var l := map["start_char" := Number(0), "end_char" := Number(1), "text_hash" := Text("0", Some(0))];
    SpanNumbers(l);
    assert Span(s, l) == s.text.value[..1];
  }

  // Nothing a snapshot supports makes validation raise.
  lemma SupportedNeverRaises(s: Snapshot, e: EvidenceRef, sha: Digest)
    requires Supports(s, e, sha)
    ensures RaiseOf(s, e, sha) == None
  {
    SpanNumbers(e.locator);
    RegionNumbers(e.locator);
  }

  lemma StoredNext(s: Snapshot, candidates: seq<FieldCandidate>, i: nat, ids: Ids, sha: Digest)
    requires i < |candidates|
    ensures Stored(s, candidates[..i + 1], ids, sha) == With(Stored(s, candidates[..i], ids, sha), s, candidates[i],
                                                             ids, sha)
  {
    assert candidates[..i + 1][..i] == candidates[..i];
  }

  // The stored evidence: what was there and the new references, each under its id.
  lemma {:induction false} IdsOfRefs(evidence: map<Id, EvidenceRecord>, refs: seq<EvidenceRef>, ids: Ids)
    ensures var more := WithEvidence(evidence, refs, ids);
            && (forall id :: id in more <==> id in evidence || id in EvidenceIds(ids, refs))
            && (forall id :: id in more ==> (id in evidence && more[id] == evidence[id]) ||
                                            exists e :: e in refs && id == ids.evidenceId(e)
                                              && more[id] == RecordOf(ids, e))
  {
    if refs != [] {
      var init, last := refs[..|refs| - 1], refs[|refs| - 1];
      IdsOfRefs(evidence, init, ids);
      assert refs == init + [last] && EvidenceIds(ids, refs) == EvidenceIds(ids, init) + [ids.evidenceId(last)];
    }
  }

  // ---------- what the store is worth ----------

  // Every stored piece of evidence is supported by the snapshot.
  ghost predicate EvidenceSound(s: Snapshot, evidence: map<Id, EvidenceRecord>, sha: Digest) {
    forall id :: id in evidence ==>
      var r := evidence[id];
      r.evidenceId == id && Supports(s, EvidenceRef(r.snapshotId, r.kind, r.locator, r.excerpt), sha)
  }

  // Every stored fact has a value, a confidence and a link, and every link leads from a stored fact to stored evidence.
  ghost predicate FactsSound(facts: map<Id, FactRecord>, links: seq<Link>, evidence: map<Id, EvidenceRecord>) {
    && (forall id :: id in facts ==> facts[id].factId == id && facts[id].value != None && facts[id].confidence != None)
    && (forall id :: id in facts ==> exists l :: l in links && l.factId == id)
    && (forall l :: l in links ==> l.factId in facts && l.evidenceId in evidence)
  }

  lemma {:induction false} StoredEvidenceIsSound(s: Snapshot, candidates: seq<FieldCandidate>, ids: Ids, sha: Digest)
    ensures EvidenceSound(s, Stored(s, candidates, ids, sha).evidence, sha)
  {
    if candidates != [] {
      var c, before := candidates[|candidates| - 1], Stored(s, candidates[..|candidates| - 1], ids, sha);
      StoredEvidenceIsSound(s, candidates[..|candidates| - 1], ids, sha);
      hide Supports;
      IdsOfRefs(before.evidence, c.evidence, ids);
    }
  }

  lemma {:induction false} StoredFactsAreSound(s: Snapshot, candidates: seq<FieldCandidate>, ids: Ids, sha: Digest)
    ensures var r := Stored(s, candidates, ids, sha); FactsSound(r.facts, r.links, r.evidence)
  {
    if candidates != [] {
      var c, before := candidates[|candidates| - 1], Stored(s, candidates[..|candidates| - 1], ids, sha);
      StoredFactsAreSound(s, candidates[..|candidates| - 1], ids, sha);
      if Admitted(s, c, sha) {
        IdsOfRefs(before.evidence, c.evidence, ids);
        FactsStaySound(before.facts, before.links, before.evidence, WithEvidence(before.evidence, c.evidence, ids),
                       FactOf(ids, c), EvidenceIds(ids, c.evidence));
      }
    }
  }

  lemma FactsStaySound(facts: map<Id, FactRecord>, links: seq<Link>, evidence: map<Id, EvidenceRecord>,
                       more: map<Id, EvidenceRecord>,
                       fact: FactRecord, ids: seq<Id>)
    requires FactsSound(facts, links, evidence) && evidence.Keys <= more.Keys && ids != []
    requires fact.value != None && fact.confidence != None && forall id :: id in ids ==> id in more
    ensures FactsSound(facts[fact.factId := fact], links + LinksFor(fact.factId, ids), more)
  {
    var l0 := LinksFor(fact.factId, ids)[0];
    assert l0 in links + LinksFor(fact.factId, ids);
    forall id | id in facts ensures exists l :: l in links + LinksFor(fact.factId, ids) && l.factId == id {
      var l :| l in links && l.factId == id;
      assert l in links + LinksFor(fact.factId, ids);
    }
  }

  // The candidate gives rise to a fact with this id.
  ghost predicate GivesRise(s: Snapshot, candidates: seq<FieldCandidate>, ids: Ids, sha: Digest, id: Id,
                            c: FieldCandidate) {
    && c in candidates && Admitted(s, c, sha)
    && c.value.Some? && id == ids.factId(c.field, c.value.value, c.extractor)
  }

  // The facts are those of the admitted candidates, no others and none missing; a stored fact is one of theirs.
  lemma {:induction false} StoredFactsIff(s: Snapshot, candidates: seq<FieldCandidate>, ids: Ids, sha: Digest, id: Id)
    ensures var facts := Stored(s, candidates, ids, sha).facts;
            && (id in facts <==> exists c :: GivesRise(s, candidates, ids, sha, id, c))
            && (id in facts ==>
                  exists c :: && GivesRise(s, candidates, ids, sha, id, c)
                              && facts[id] == FactRecord(id, c.field, c.value, c.confidence, c.extractor))
  {
    if candidates != [] {
      var init, c := candidates[..|candidates| - 1], candidates[|candidates| - 1];
      StoredFactsIff(s, init, ids, sha, id);
      hide Admitted, FactIdOf;
      assert candidates == init + [c];
      forall d ensures GivesRise(s, candidates, ids, sha, id, d) <==>
                       GivesRise(s, init, ids, sha, id, d)
                         || (d == c && Admitted(s, c, sha) && id == FactIdOf(ids, c)) {}
      assert GivesRise(s, candidates, ids, sha, id, c) <==> Admitted(s, c, sha) && id == FactIdOf(ids, c);
    }
  }

  // The i-th evidence link of a candidate.
  ghost predicate LinkAt(s: Snapshot, candidates: seq<FieldCandidate>, ids: Ids, sha: Digest, l: Link,
                         c: FieldCandidate, i: int) {
    && c in candidates && Admitted(s, c, sha) && 0 <= i < |c.evidence|
    && l == Link(FactIdOf(ids, c), ids.evidenceId(c.evidence[i]), i + 1)
  }

  // The links are those between an admitted candidate's fact and each piece of its own evidence, in order.
  lemma {:induction false} StoredLinksIff(s: Snapshot, candidates: seq<FieldCandidate>, ids: Ids, sha: Digest, l: Link)
    ensures l in Stored(s, candidates, ids, sha).links <==> exists c, i :: LinkAt(s, candidates, ids, sha, l, c, i)
  {
    if candidates != [] {
      var init, c := candidates[..|candidates| - 1], candidates[|candidates| - 1];
      StoredLinksIff(s, init, ids, sha, l);
      assert candidates == init + [c];
      hide Admitted, FactIdOf;
      if exists d, i :: LinkAt(s, init, ids, sha, l, d, i) {
        var d, i :| LinkAt(s, init, ids, sha, l, d, i);
        assert LinkAt(s, candidates, ids, sha, l, d, i);
      }
      if Admitted(s, c, sha) {
        var links := LinksFor(FactIdOf(ids, c), EvidenceIds(ids, c.evidence));
        if l in links {
          var i :| 0 <= i < |links| && links[i] == l;
          assert LinkAt(s, candidates, ids, sha, l, c, i);
        }
        if exists i :: LinkAt(s, candidates, ids, sha, l, c, i) {
          var i :| LinkAt(s, candidates, ids, sha, l, c, i);
          assert links[i] == l;
        }
      }
      if exists d, i :: LinkAt(s, candidates, ids, sha, l, d, i) {
        var d, i :| LinkAt(s, candidates, ids, sha, l, d, i);
        if d in init { assert LinkAt(s, init, ids, sha, l, d, i); }
      }
    }
  }

  ghost predicate TellsApart(ids: Ids) {
    forall a, b :: ids.evidenceId(a) == ids.evidenceId(b) ==> a == b
  }

  // With ids that tell evidence apart, a candidate's evidence is found again, unchanged, under its id.
  lemma {:induction false} StoredEvidenceIsFound(s: Snapshot, candidates: seq<FieldCandidate>, ids: Ids, sha: Digest,
                                                 c: FieldCandidate, e: EvidenceRef)
    requires TellsApart(ids) && c in candidates && Admitted(s, c, sha) && e in c.evidence
    ensures var evidence := Stored(s, candidates, ids, sha).evidence;
            && ids.evidenceId(e) in evidence
            && evidence[ids.evidenceId(e)] ==
               EvidenceRecord(ids.evidenceId(e), e.snapshotId, e.kind, e.locator, e.excerpt)
  {
    var init, last := candidates[..|candidates| - 1], candidates[|candidates| - 1];
    var before := Stored(s, init, ids, sha);
    assert candidates == init + [last];
    if c in init { StoredEvidenceIsFound(s, init, ids, sha, c, e); }
    hide Supports;
    IdsOfRefs(before.evidence, last.evidence, ids);
    if c == last {
      var i :| 0 <= i < |c.evidence| && c.evidence[i] == e;
      assert EvidenceIds(ids, c.evidence)[i] == ids.evidenceId(e);
      FoundAmong(before.evidence, c.evidence, ids, e);
    }
  }

  lemma {:induction false} FoundAmong(evidence: map<Id, EvidenceRecord>, refs: seq<EvidenceRef>, ids: Ids,
                                      e: EvidenceRef)
    requires TellsApart(ids) && e in refs
    ensures ids.evidenceId(e) in WithEvidence(evidence, refs, ids)
    ensures WithEvidence(evidence, refs, ids)[ids.evidenceId(e)] == RecordOf(ids, e)
  {
    var init, last := refs[..|refs| - 1], refs[|refs| - 1];
    assert refs == init + [last];
    if e != last { FoundAmong(evidence, init, ids, e); }
  }
}
