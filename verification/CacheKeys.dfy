// services/geo_commute/cache.py: the commute cache key and its text form.
module CacheKeys {
  import opened Prelude

  datatype Mode = Transit | Walk | Bike | Drive

  datatype CacheKey = CacheKey(origin: string, anchor: string, mode: Mode, bucket: string)

  datatype KeyError = FieldCount | FieldOrder | UnknownMode

  function ModeName(m: Mode): string {
    match m case Transit => "transit" case Walk => "walk" case Bike => "bike" case Drive => "drive"
  }

  function ModeNamed(s: string): Option<Mode> {
    if s == "transit" then Some(Transit) else if s == "walk" then Some(Walk)
    else if s == "bike" then Some(Bike) else if s == "drive" then Some(Drive) else None
  }

  const FIELDS := ["origin_h3=", "anchor_id=", "mode=", "time_bucket="]

  function ToKey(k: CacheKey): string {
    FIELDS[0] + k.origin + "|" +
    (FIELDS[1] + k.anchor + "|" + (FIELDS[2] + ModeName(k.mode) + "|" + (FIELDS[3] + k.bucket)))
  }

  // The text of a key, part by part.
  lemma KeyText(k: CacheKey)
    ensures var mode := match k.mode
                        case Transit => "transit"
                        case Walk => "walk"
                        case Bike => "bike"
                        case Drive => "drive";
            ToKey(k) == "origin_h3=" + k.origin + "|" +
                        ("anchor_id=" + k.anchor + "|" + ("mode=" + mode + "|" + ("time_bucket=" + k.bucket)))
  {
  }

  // value.split("|")
  function Split(s: string): (parts: seq<string>)
    ensures |parts| > 0
  {
    if s == "" then [""]
    else
      var rest := Split(s[1..]);
      if s[0] == '|' then [""] + rest else [[s[0]] + rest[0]] + rest[1..]
  }

  function ParseKey(s: string): Result<CacheKey, KeyError> {
    var parts := Split(s);
    if |parts| != 4 then Err(FieldCount)
    else if exists i :: 0 <= i < 4 && !(FIELDS[i] <= parts[i]) then Err(FieldOrder)
    else
      var mode := ModeNamed(parts[2][|FIELDS[2]|..]);
      if mode == None then Err(UnknownMode)
      else Ok(CacheKey(parts[0][|FIELDS[0]|..], parts[1][|FIELDS[1]|..], mode.value, parts[3][|FIELDS[3]|..]))
  }

  method Parse(s: string) returns (r: Result<CacheKey, KeyError>)
    ensures r == ParseKey(s)
  {
    var parts := Split(s);
    if |parts| != |FIELDS| { return Err(FieldCount); }
    var extracted: seq<string> := [];
    for i := 0 to |FIELDS|
      invariant |extracted| == i
      invariant forall j :: 0 <= j < i ==> FIELDS[j] <= parts[j] && extracted[j] == parts[j][|FIELDS[j]|..]
    {
      if !(FIELDS[i] <= parts[i]) { return Err(FieldOrder); }
      extracted := extracted + [parts[i][|FIELDS[i]|..]];
    }
    var mode := ModeNamed(extracted[2]);
    if mode == None { return Err(UnknownMode); }
    r := Ok(CacheKey(extracted[0], extracted[1], mode.value, extracted[3]));
  }

  predicate NoPipe(s: string) { '|' !in s }

  predicate Plain(k: CacheKey) { NoPipe(k.origin) && NoPipe(k.anchor) && NoPipe(k.bucket) }

  lemma {:induction false} SplitFirst(a: string, rest: string)
    requires NoPipe(a)
    ensures Split(a + "|" + rest) == [a] + Split(rest)
  {
    if a == "" {
      assert ("" + "|" + rest)[1..] == rest;
    } else {
      SplitFirst(a[1..], rest);
      assert (a + "|" + rest)[1..] == a[1..] + "|" + rest;
      assert [a[0]] + a[1..] == a;
    }
  }

  lemma {:induction false} SplitLast(a: string)
    requires NoPipe(a)
    ensures Split(a) == [a]
  {
    if a != "" {
      SplitLast(a[1..]);
      assert [a[0]] + a[1..] == a;
    }
  }

  function Pipes(s: string): nat { if s == "" then 0 else Pipes(s[1..]) + if s[0] == '|' then 1 else 0 }

  lemma {:induction false} SplitCount(s: string)
    ensures |Split(s)| == Pipes(s) + 1
  {
    if s != "" { SplitCount(s[1..]); }
  }

  lemma {:induction false} PipesConcat(a: string, b: string)
    ensures Pipes(a + b) == Pipes(a) + Pipes(b)
  {
    if a == "" {
      assert a + b == b;
    } else {
      PipesConcat(a[1..], b);
      assert (a + b)[1..] == a[1..] + b;
    }
  }

  lemma {:induction false} NoPipes(s: string)
    ensures Pipes(s) == 0 <==> NoPipe(s)
  {
    if s != "" {
      NoPipes(s[1..]);
      assert NoPipe(s) <==> s[0] != '|' && NoPipe(s[1..]) by { assert s == [s[0]] + s[1..]; }
    }
  }

  lemma FieldPipes(prefix: string, value: string)
    requires prefix in FIELDS
    ensures Pipes(prefix + value) == Pipes(value) && (NoPipe(value) ==> NoPipe(prefix + value))
  {
    assert forall i :: 0 <= i < 4 ==> NoPipe(FIELDS[i]);
    NoPipes(prefix);
    PipesConcat(prefix, value);
  }

  lemma KeyPipes(k: CacheKey)
    ensures Pipes(ToKey(k)) == Pipes(k.origin) + Pipes(k.anchor) + Pipes(k.bucket) + 3
  {
    var f0, f1 := FIELDS[0] + k.origin, FIELDS[1] + k.anchor;
    var f2, f3 := FIELDS[2] + ModeName(k.mode), FIELDS[3] + k.bucket;
    FieldPipes(FIELDS[0], k.origin);
    FieldPipes(FIELDS[1], k.anchor);
    FieldPipes(FIELDS[2], ModeName(k.mode));
    FieldPipes(FIELDS[3], k.bucket);
    assert NoPipe(ModeName(k.mode));
    NoPipes(ModeName(k.mode));
    OnePipe(f2, f3);
    OnePipe(f1, f2 + "|" + f3);
    OnePipe(f0, f1 + "|" + (f2 + "|" + f3));
  }

  lemma OnePipe(a: string, b: string)
    ensures Pipes(a + "|" + b) == Pipes(a) + 1 + Pipes(b)
  {
    assert Pipes("|") == 1 by { assert "|"[1..] == ""; }
    PipesConcat(a, "|");
    PipesConcat(a + "|", b);
  }

  lemma PlainSplit(k: CacheKey)
    requires Plain(k)
    ensures Split(ToKey(k)) ==
            [FIELDS[0] + k.origin, FIELDS[1] + k.anchor, FIELDS[2] + ModeName(k.mode), FIELDS[3] + k.bucket]
  {
    var f0, f1 := FIELDS[0] + k.origin, FIELDS[1] + k.anchor;
    var f2, f3 := FIELDS[2] + ModeName(k.mode), FIELDS[3] + k.bucket;
    FieldPipes(FIELDS[0], k.origin);
    FieldPipes(FIELDS[1], k.anchor);
    assert NoPipe(ModeName(k.mode));
    FieldPipes(FIELDS[2], ModeName(k.mode));
    FieldPipes(FIELDS[3], k.bucket);
    SplitLast(f3);
    SplitFirst(f2, f3);
    SplitFirst(f1, f2 + "|" + f3);
    SplitFirst(f0, f1 + "|" + (f2 + "|" + f3));
  }

  // Parsing undoes writing exactly for keys whose parts hold no separator.
  lemma ParseUndoesToKeyIff(k: CacheKey)
    ensures ParseKey(ToKey(k)) == Ok(k) <==> Plain(k)
  {
    if Plain(k) {
      PlainSplit(k);
      assert forall i :: 0 <= i < 4 ==> FIELDS[i] <= Split(ToKey(k))[i];
      assert ModeNamed(ModeName(k.mode)) == Some(k.mode);
      assert (FIELDS[2] + ModeName(k.mode))[|FIELDS[2]|..] == ModeName(k.mode);
    } else if ParseKey(ToKey(k)) == Ok(k) {
      SplitCount(ToKey(k));
      KeyPipes(k);
      NoPipes(k.origin);
      NoPipes(k.anchor);
      NoPipes(k.bucket);
    }
  }

  // So the text form tells such keys apart.
  lemma ToKeyInjective(a: CacheKey, b: CacheKey)
    requires Plain(a) && Plain(b) && ToKey(a) == ToKey(b)
    ensures a == b
  {
    ParseUndoesToKeyIff(a);
    ParseUndoesToKeyIff(b);
  }

  // With a separator inside a part, two different keys can have one text form.
  lemma SeparatorsCollide(x: string, y: string, z: string, mode: Mode, bucket: string)
    ensures var a := CacheKey(x + "|" + FIELDS[1] + y, z, mode, bucket);
            var b := CacheKey(x, y + "|" + FIELDS[1] + z, mode, bucket);
            a != b && ToKey(a) == ToKey(b)
  {
    Regroup(FIELDS[0], x, y, z, FIELDS[1], FIELDS[2] + ModeName(mode) + "|" + (FIELDS[3] + bucket));
    assert |x + "|" + FIELDS[1] + y| > |x|;
  }

  lemma Regroup(o: string, x: string, y: string, z: string, n: string, rest: string)
    ensures o + (x + "|" + n + y) + "|" + (n + z + "|" + rest) == o + x + "|" + (n + (y + "|" + n + z) + "|" + rest)
  {
  }

  function Join(parts: seq<string>): string
    requires |parts| > 0
  {
    if |parts| == 1 then parts[0] else parts[0] + "|" + Join(parts[1..])
  }

  lemma {:induction false} JoinUndoesSplit(s: string)
    ensures Join(Split(s)) == s
  {
    if s != "" {
      var rest := Split(s[1..]);
      JoinUndoesSplit(s[1..]);
      assert s == [s[0]] + s[1..];
      if s[0] == '|' {
        assert Split(s)[1..] == rest;
      } else {
        assert Split(s)[1..] == rest[1..];
        var tail := if |rest| > 1 then Join(rest[1..]) else "";
        assert ([s[0]] + rest[0]) + "|" + tail == [s[0]] + (rest[0] + "|" + tail);
      }
    }
  }

  // Writing undoes parsing, whatever text was parsed.
  lemma ToKeyUndoesParse(s: string)
    requires ParseKey(s).Ok?
    ensures ToKey(ParseKey(s).value) == s && Plain(ParseKey(s).value)
  {
    var p, k := Split(s), ParseKey(s).value;
    JoinUndoesSplit(s);
    assert p == [p[0], p[1], p[2], p[3]] && p[1..][1..][1..] == [p[3]] && p[1..][1..] == [p[2], p[3]]
           && p[1..] == [p[1], p[2], p[3]];
    assert Join([p[3]]) == p[3];
    assert Join([p[2], p[3]]) == p[2] + "|" + p[3];
    assert Join([p[1], p[2], p[3]]) == p[1] + "|" + (p[2] + "|" + p[3]);
    assert Join(p) == p[0] + "|" + (p[1] + "|" + (p[2] + "|" + p[3]));
    assert FIELDS[0] <= p[0] && FIELDS[1] <= p[1] && FIELDS[2] <= p[2] && FIELDS[3] <= p[3];
    ModeNameUndoes(p[2][|FIELDS[2]|..]);
    assert p[0] == FIELDS[0] + k.origin && p[1] == FIELDS[1] + k.anchor && p[2] == FIELDS[2] + ModeName(k.mode)
           && p[3] == FIELDS[3] + k.bucket;
    ParseUndoesToKeyIff(k);
  }

  lemma ModeNameUndoes(s: string)
    ensures ModeNamed(s).Some? ==> ModeName(ModeNamed(s).value) == s
  {
  }
}
