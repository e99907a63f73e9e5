/** The list of label prefixes that are not copied to StorageClasses: how it is parsed from the
    environment, and that what Helm joins is what the controller reads. */
module LabelPrefixes {
  /** Go's unicode.IsSpace. */
  predicate IsSpace(c: char) {
    c in "\t\n\r \U{B}\U{C}\U{85}\U{A0}\U{1680}\U{2028}\U{2029}\U{202F}\U{205F}\U{3000}" || '\U{2000}' <= c <= '\U{200A}'
  }

  function TrimLeft(s: string): (r: string)
    ensures |r| <= |s|
  {
    if s != "" && IsSpace(s[0]) then TrimLeft(s[1..]) else s
  }

  function TrimRight(s: string): (r: string)
    ensures |r| <= |s|
  {
    if s != "" && IsSpace(s[|s| - 1]) then TrimRight(s[..|s| - 1]) else s
  }

  function TrimSpace(s: string): string {
    TrimRight(TrimLeft(s))
  }

  /** Splits at every comma: n commas give n + 1 parts. */
  function Split(s: string): (parts: seq<string>)
    ensures |parts| > 0
  {
    if s == "" then [""]
    else
      var rest := Split(s[1..]);
      if s[0] == ',' then [""] + rest else [[s[0]] + rest[0]] + rest[1..]
  }

  function Join(parts: seq<string>): string {
    if parts == [] then "" else if |parts| == 1 then parts[0] else parts[0] + "," + Join(parts[1..])
  }

  function Keep(parts: seq<string>): seq<string> {
    if parts == [] then []
    else
      var last := TrimSpace(parts[|parts| - 1]);
      Keep(parts[..|parts| - 1]) + (if last == "" then [] else [last])
  }

  method ParseStorageClassLabelIgnoredPrefixes(raw: string) returns (out: seq<string>)
    ensures out == Parsed(raw)
  {
    if raw == "" {
      return [];
    }
    var parts := Split(raw);
    out := [];
    for i := 0 to |parts|
      invariant out == Keep(parts[..i])
    {
      var p := TrimSpace(parts[i]);
      assert parts[..i + 1][..i] == parts[..i];
      if p != "" {
        out := out + [p];
      }
    }
    assert parts[..|parts|] == parts;
  }

  function Parsed(raw: string): seq<string> {
    if raw == "" then [] else Keep(Split(raw))
  }

  /** No input yields an empty prefix, which would match every label, nor one with space around
      it or a comma in it. */
  lemma ParsedAreGood(raw: string)
    ensures forall p :: p in Parsed(raw) ==> Good(p)
  {
    if raw != "" {
      SplitHasNoCommas(raw);
      KeptAreGood(Split(raw));
    }
  }

  /** Parsing goes from comma to comma, however the parts are spaced. */
  lemma ParsedInParts(a: string, b: string)
    ensures Parsed(a + "," + b) == Parsed(a) + Parsed(b)
  {
    SplitAtComma(a, b);
    KeepAppends(Split(a), Split(b));
    assert Keep([""]) == [] by { assert [""][..0] == []; }
  }

  lemma {:induction false} SplitAtComma(a: string, b: string)
    ensures Split(a + "," + b) == Split(a) + Split(b)
  {
    if a == "" {
      assert (a + "," + b)[1..] == b;
    } else {
      SplitAtComma(a[1..], b);
      assert (a + "," + b)[1..] == a[1..] + "," + b;
    }
  }

  lemma {:induction false} KeepAppends(xs: seq<string>, ys: seq<string>)
    ensures Keep(xs + ys) == Keep(xs) + Keep(ys)
  {
    hide TrimSpace;
    if ys == [] {
      assert xs + ys == xs;
    } else {
      var last := |ys| - 1;
      KeepAppends(xs, ys[..last]);
      assert (xs + ys)[..|xs + ys| - 1] == xs + ys[..last];
      assert (xs + ys)[|xs + ys| - 1] == ys[last];
    }
  }

  predicate AllSpace(s: string) {
    forall c :: c in s ==> IsSpace(c)
  }

  /** A part without commas gives what is between the spaces around it, and nothing if there is nothing
      else. */
  lemma ParsedPart(before: string, p: string, after: string)
    requires AllSpace(before) && AllSpace(after) && ',' !in p && (p == "" || Good(p))
    ensures Parsed(before + p + after) == if p == "" then [] else [p]
  {
    var s := before + p + after;
    CommaIsNoSpace();
    assert ',' !in s;
    SplitPart(s, "");
    TrimmedIs(before, p, after);
    assert [s][..0] == [];
    assert Keep([s]) == if p == "" then [] else [p];
    assert s == "" ==> |p| == 0;
  }

  lemma CommaIsNoSpace()
    ensures !IsSpace(',')
  {
  }

  lemma {:induction false} TrimmedIs(before: string, p: string, after: string)
    requires AllSpace(before) && AllSpace(after) && (p == "" || Good(p))
    ensures TrimSpace(before + p + after) == p
  {
    hide IsSpace;
    if before != "" {
      TrimmedIs(before[1..], p, after);
      assert (before + p + after)[1..] == before[1..] + p + after;
    } else {
      assert before + p + after == p + after;
      TrimmedRight(p, after);
      if p == "" {
        TrimmedAway(after);
        assert p + after == after;
      }
    }
  }

  lemma {:induction false} TrimmedAway(s: string)
    requires AllSpace(s)
    ensures TrimLeft(s) == ""
  {
    hide IsSpace;
    if s != "" {
      TrimmedAway(s[1..]);
    }
  }

  lemma {:induction false} TrimmedRight(p: string, after: string)
    requires AllSpace(after) && (p == "" || Good(p))
    ensures TrimRight(p + after) == p
  {
    hide IsSpace;
    if after == "" {
      assert p + after == p;
    } else {
      var last := |after| - 1;
      TrimmedRight(p, after[..last]);
      assert (p + after)[..|p + after| - 1] == p + after[..last];
    }
  }

  /** A prefix as an administrator writes it: not empty, no space around it, no comma. */
  predicate Good(p: string) {
    p != "" && !IsSpace(p[0]) && !IsSpace(p[|p| - 1]) && ',' !in p
  }

  lemma {:induction false} SplitHasNoCommas(s: string)
    ensures forall p :: p in Split(s) ==> ',' !in p
  {
    if s != "" {
      SplitHasNoCommas(s[1..]);
      var rest := Split(s[1..]);
      assert rest[0] in rest;
      forall p | p in Split(s) ensures ',' !in p {
        if s[0] != ',' && p in rest[1..] {
          assert p in rest;
        }
      }
    }
  }

  lemma {:induction false} TrimLeftIsSuffix(s: string)
    ensures TrimLeft(s) == s[|s| - |TrimLeft(s)|..]
    ensures TrimLeft(s) != "" ==> !IsSpace(TrimLeft(s)[0])
  {
    hide IsSpace;
    if s != "" && IsSpace(s[0]) {
      TrimLeftIsSuffix(s[1..]);
    }
  }

  lemma {:induction false} TrimRightIsPrefix(s: string)
    ensures TrimRight(s) == s[..|TrimRight(s)|]
    ensures TrimRight(s) != "" ==> !IsSpace(TrimRight(s)[|TrimRight(s)| - 1])
  {
    hide IsSpace;
    if s != "" && IsSpace(s[|s| - 1]) {
      TrimRightIsPrefix(s[..|s| - 1]);
    }
  }

  lemma {:induction false} KeptAreGood(parts: seq<string>)
    requires forall p :: p in parts ==> ',' !in p
    ensures forall p :: p in Keep(parts) ==> Good(p)
  {
    hide IsSpace;
    if parts != [] {
      var last := parts[|parts| - 1];
      KeptAreGood(parts[..|parts| - 1]);
      TrimLeftIsSuffix(last);
      TrimRightIsPrefix(TrimLeft(last));
      assert forall c :: c in TrimSpace(last) ==> c in last;
    }
  }

  lemma {:induction false} SplitPart(p: string, rest: string)
    requires ',' !in p
    ensures Split(p) == [p]
    ensures Split(p + "," + rest) == [p] + Split(rest)
  {
    if p == "" {
      assert ("," + rest)[1..] == rest;
      assert "" + "," + rest == "," + rest;
    } else {
      SplitPart(p[1..], rest);
      assert (p + "," + rest)[1..] == p[1..] + "," + rest;
      assert [p[0]] + p[1..] == p;
    }
  }

  lemma {:induction false} SplitJoin(xs: seq<string>)
    requires xs != [] && forall x :: x in xs ==> ',' !in x
    ensures Split(Join(xs)) == xs
  {
    SplitPart(xs[0], Join(xs[1..]));
    if |xs| > 1 {
      SplitJoin(xs[1..]);
    }
  }

  lemma {:induction false} KeepGood(xs: seq<string>)
    requires forall x :: x in xs ==> Good(x)
    ensures Keep(xs) == xs
  {
    if xs != [] {
      KeepGood(xs[..|xs| - 1]);
      assert xs == xs[..|xs| - 1] + [xs[|xs| - 1]];
      assert xs[|xs| - 1] in xs;
    }
  }

  /** What Helm joins is what the controller reads, exactly if every prefix is a good one. */
  lemma ParseJoin(xs: seq<string>)
    ensures Parsed(Join(xs)) == xs <==> forall x :: x in xs ==> Good(x)
  {
    if forall x :: x in xs ==> Good(x) {
      if xs != [] {
        SplitJoin(xs);
        KeepGood(xs);
        assert xs[0] in xs;
        assert Join(xs) != "";
      }
    } else {
      ParsedAreGood(Join(xs));
    }
  }

  /** The key starts with one of the prefixes; empty ones do not count. */
  predicate IsIgnoredLabelKey(key: string, prefixes: seq<string>) {
    exists i :: 0 <= i < |prefixes| && prefixes[i] != "" && prefixes[i] <= key
  }

  method CheckIgnoredLabelKey(key: string, prefixes: seq<string>) returns (ignored: bool)
    ensures ignored == IsIgnoredLabelKey(key, prefixes)
  {
    for i := 0 to |prefixes|
      invariant !IsIgnoredLabelKey(key, prefixes[..i])
    {
      if prefixes[i] != "" && prefixes[i] <= key {
        return true;
      }
    }
    assert prefixes[..|prefixes|] == prefixes;
    return false;
  }

  function FilterLabels(src: map<string, string>, prefixes: seq<string>): map<string, string> {
    map k | k in src && !IsIgnoredLabelKey(k, prefixes) :: src[k]
  }

  method FilterLabelsForStorageClass(src: map<string, string>, prefixes: seq<string>) returns (out: map<string, string>)
    ensures out == FilterLabels(src, prefixes)
  {
    out := map[];
    var rest := src.Keys;
    while rest != {}
      invariant rest <= src.Keys
      invariant forall k :: k in out <==> k in src && k !in rest && !IsIgnoredLabelKey(k, prefixes)
      invariant forall k :: k in out ==> out[k] == src[k]
      decreases rest
    {
      var k :| k in rest;
      rest := rest - {k};
      var ignored := CheckIgnoredLabelKey(k, prefixes);
      if !ignored {
        out := out[k := src[k]];
      }
    }
  }

  /** End to end: with the prefixes joined by Helm and parsed by the controller, a label is
      copied exactly if no configured prefix starts its key. */
  lemma ConfiguredPrefixesDecide(xs: seq<string>, src: map<string, string>, key: string)
    requires forall x :: x in xs ==> Good(x)
    ensures key in FilterLabels(src, Parsed(Join(xs))) <==> key in src && forall x :: x in xs ==> !(x <= key)
    ensures key in FilterLabels(src, Parsed(Join(xs))) ==> FilterLabels(src, Parsed(Join(xs)))[key] == src[key]
  {
    ParseJoin(xs);
    if key in src && IsIgnoredLabelKey(key, xs) {
      var i :| 0 <= i < |xs| && xs[i] != "" && xs[i] <= key;
      assert xs[i] in xs;
    }
  }
}
