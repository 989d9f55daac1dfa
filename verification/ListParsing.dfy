/**
 Comma-separated lists.  Characters are collected in a scratch buffer of 60 characters that
 all lists share; at every comma, and once more at the end, the buffer's number is stored and
 the buffer emptied.
 */
module ListParsing {

  const NUL: char := '\0'
  const SCRATCH_SIZE: nat := 60

  // ---------- specification ----------

  /** The text cut at its commas. */
  function Fields(s: string): (fs: seq<string>)
    ensures fs != []
  {
    if s == [] then [""]
    else
      var fs, c := Fields(s[..|s| - 1]), s[|s| - 1];
      if c == ',' then fs + [""] else fs[..|fs| - 1] + [fs[|fs| - 1] + [c]]
  }

  function Join(fs: seq<string>): string
    requires fs != []
  {
    if |fs| == 1 then fs[0] else Join(fs[..|fs| - 1]) + "," + fs[|fs| - 1]
  }

  predicate IsDigit(c: char) {
    '0' <= c <= '9'
  }

  predicate IsSpace(c: char) {
    c == ' ' || '\t' <= c <= '\r'
  }

  /** The number the leading digits spell, after an accumulated one. */
  function Horner(s: string, acc: nat): nat {
    if s == [] || !IsDigit(s[0]) then acc else Horner(s[1..], 10 * acc + (s[0] as int - '0' as int))
  }

  /** The number at the start of a string: white space, a sign, digits. */
  function Atoi(s: string): int {
    if s == [] then 0
    else if IsSpace(s[0]) then Atoi(s[1..])
    else if s[0] == '-' then 0 - Horner(s[1..], 0)
    else if s[0] == '+' then Horner(s[1..], 0)
    else Horner(s, 0)
  }

  function Numbers(fs: seq<string>): seq<int> {
    seq(|fs|, k requires 0 <= k < |fs| => Atoi(fs[k]))
  }

  /** An array after a list was stored at its front. */
  function Stored(text: string, before: seq<int>): seq<int> {
    var ns := Numbers(Fields(text));
    if |ns| <= |before| then ns + before[|ns|..] else ns
  }

  /** What the fixed buffers demand of a text. */
  predicate Fits(text: string, capacity: nat) {
    && NUL !in text
    && |Fields(text)| <= capacity
    && forall k :: 0 <= k < |Fields(text)| ==> |Fields(text)[k]| < SCRATCH_SIZE
  }

  // ---------- cutting and joining ----------

  predicate CommaFree(fs: seq<string>) {
    forall k :: 0 <= k < |fs| ==> ',' !in fs[k]
  }

  lemma JoinExtend(fs: seq<string>, c: char)
    requires fs != []
    ensures Join(fs[..|fs| - 1] + [fs[|fs| - 1] + [c]]) == Join(fs) + [c]
  {
    var init, last := fs[..|fs| - 1], fs[|fs| - 1];
    var longer := init + [last + [c]];
    if |fs| > 1 {
      JoinLast(longer);
      assert longer[..|longer| - 1] == init && longer[|longer| - 1] == last + [c];
      Associate(Join(init) + ",", last, [c]);
    }
  }

  lemma JoinLast(fs: seq<string>)
    requires |fs| > 1
    ensures Join(fs) == Join(fs[..|fs| - 1]) + "," + fs[|fs| - 1]
  {
  }

  lemma Associate(a: string, b: string, c: string)
    ensures a + (b + c) == a + b + c
  {
  }

  lemma JoinMore(fs: seq<string>)
    requires fs != []
    ensures Join(fs + [""]) == Join(fs) + ","
  {
  }

  /** Nothing is lost: joining the fields gives the text back. */
  lemma {:induction false} JoinFields(s: string)
    ensures Join(Fields(s)) == s
  {
    if s != [] {
      var t, c := s[..|s| - 1], s[|s| - 1];
      JoinFields(t);
      JoinMore(Fields(t));
      JoinExtend(Fields(t), c);
      assert s == t + [c];
    }
  }

  /** One more character that is not a comma. */
  lemma FieldsExtend(s: string, c: char)
    requires c != ','
    ensures var fs := Fields(s); Fields(s + [c]) == fs[..|fs| - 1] + [fs[|fs| - 1] + [c]]
  {
    assert (s + [c])[..|s|] == s;
  }

  lemma ExtendTwice(fs: seq<string>, g: string, c: char)
    requires fs != []
    ensures var gs := fs[..|fs| - 1] + [fs[|fs| - 1] + g];
            gs[..|gs| - 1] + [gs[|gs| - 1] + [c]] == fs[..|fs| - 1] + [fs[|fs| - 1] + (g + [c])]
  {
    Associate(fs[|fs| - 1], g, [c]);
  }

  lemma {:induction false} FieldsAppend(s: string, f: string)
    requires ',' !in f
    ensures Fields(s + f) == Fields(s)[..|Fields(s)| - 1] + [Fields(s)[|Fields(s)| - 1] + f]
  {
    if f == [] {
      var fs := Fields(s);
      assert s + f == s && fs[|fs| - 1] + f == fs[|fs| - 1];
    } else {
      var g, c := f[..|f| - 1], f[|f| - 1];
      FieldsAppend(s, g);
      FieldsExtend(s + g, c);
      ExtendTwice(Fields(s), g, c);
      assert f == g + [c];
      Associate(s, g, [c]);
    }
  }

  lemma FieldsComma(s: string, f: string)
    requires ',' !in f
    ensures Fields(s + "," + f) == Fields(s) + [f]
  {
    var t := s + ",";
    assert t[..|s|] == s;
    assert Fields(t) == Fields(s) + [""];
    FieldsAppend(t, f);
    assert Fields(t)[..|Fields(s)|] == Fields(s) && "" + f == f;
  }

  lemma FieldsOne(f: string)
    requires ',' !in f
    ensures Fields(f) == [f]
  {
    FieldsAppend("", f);
    assert "" + f == f && Fields("") == [""];
  }

  /** Cutting a joined text gives its parts back. */
  lemma {:induction false} FieldsJoin(fs: seq<string>)
    requires fs != [] && CommaFree(fs)
    ensures Fields(Join(fs)) == fs
  {
    var last := fs[|fs| - 1];
    if |fs| == 1 {
      FieldsOne(last);
    } else {
      FieldsJoin(fs[..|fs| - 1]);
      FieldsComma(Join(fs[..|fs| - 1]), last);
      assert fs == fs[..|fs| - 1] + [last];
    }
  }

  /** The fields of a prefix are those of the text, the last one cut short. */
  lemma {:induction false} PrefixFields(s: string, n: nat)
    requires n <= |s|
    ensures |Fields(s[..n])| <= |Fields(s)|
    ensures |Fields(s[..n])[|Fields(s[..n])| - 1]| <= |Fields(s)[|Fields(s[..n])| - 1]|
  {
    if n == |s| {
      assert s[..n] == s;
    } else {
      PrefixFields(s[..|s| - 1], n);
      assert s[..|s| - 1][..n] == s[..n];
    }
  }

  // ---------- numbers ----------

  function Decimal(n: nat): string {
    var d := ('0' as int + n % 10) as char;
    if n < 10 then [d] else Decimal(n / 10) + [d]
  }

  predicate AllDigits(s: string) {
    forall k :: 0 <= k < |s| ==> IsDigit(s[k])
  }

  lemma {:induction false} HornerAppend(s: string, c: char, acc: nat)
    requires AllDigits(s) && IsDigit(c)
    ensures Horner(s + [c], acc) == 10 * Horner(s, acc) + (c as int - '0' as int)
  {
    if s == [] {
      assert (s + [c])[1..] == [];
    } else {
      assert (s + [c])[1..] == s[1..] + [c];
      HornerAppend(s[1..], c, 10 * acc + (s[0] as int - '0' as int));
    }
  }

  lemma {:induction false} HornerDecimal(n: nat)
    ensures Decimal(n) != [] && AllDigits(Decimal(n)) && Horner(Decimal(n), 0) == n
  {
    var d := ('0' as int + n % 10) as char;
    if n < 10 {
      assert Decimal(n)[1..] == [];
    } else {
      HornerDecimal(n / 10);
      HornerAppend(Decimal(n / 10), d, 0);
    }
  }

  lemma AtoiDecimal(n: nat)
    ensures Atoi(Decimal(n)) == n && ',' !in Decimal(n) && NUL !in Decimal(n)
  {
    HornerDecimal(n);
    assert IsDigit(Decimal(n)[0]);
  }

  function Decimals(ns: seq<nat>): (fs: seq<string>)
    ensures |fs| == |ns|
  {
    seq(|ns|, k requires 0 <= k < |ns| => Decimal(ns[k]))
  }

  /** A list of numbers written out in decimal is read back. */
  lemma ListRoundTrip(ns: seq<nat>)
    requires ns != []
    ensures Numbers(Fields(Join(Decimals(ns)))) == ns
  {
    var fs := Decimals(ns);
    forall k | 0 <= k < |ns| ensures Atoi(fs[k]) == ns[k] && ',' !in fs[k] {
      AtoiDecimal(ns[k]);
    }
    FieldsJoin(fs);
  }

  // ---------- the buffers ----------

  /** The array holds the terminated string s. */
  ghost predicate Holds(a: array<char>, s: string)
    reads a
  {
    |s| < a.Length && NUL !in s && a[..|s|] == s && a[|s|] == NUL
  }

  method Clear(a: array<char>)
    requires a.Length > 0
    modifies a
    ensures Holds(a, "")
  {
    a[0] := NUL;
  }

  /** Where the string ends. */
  method Length(a: array<char>, ghost s: string) returns (n: nat)
    requires Holds(a, s)
    ensures n == |s|
  {
    n := 0;
    while a[n] != NUL
      invariant n <= |s|
      decreases |s| - n
    {
      assert n < |s| ==> s[n] == a[..|s|][n];
      n := n + 1;
    }
  }

  method Append(a: array<char>, c: char, ghost s: string)
    requires Holds(a, s) && c != NUL && |s| + 1 < a.Length
    modifies a
    ensures Holds(a, s + [c])
  {
    var n := Length(a, s);
    a[n] := c;
    a[n + 1] := NUL;
    assert a[..n + 1] == s + [c];
  }

  /** The number in the buffer. */
  method Number(a: array<char>, ghost s: string) returns (v: int)
    requires Holds(a, s)
    ensures v == Atoi(s)
  {
    var n := Length(a, s);
    v := Atoi(a[..n]);
  }

  /** The fields seen so far: all but the last are stored, the last is in the buffer. */
  ghost predicate Progress(fs: seq<string>, m: nat, scratch: array<char>, dest: array<int>, before: seq<int>)
    reads scratch, dest
  {
    && m == |fs| - 1 && m <= dest.Length == |before|
    && Holds(scratch, fs[m])
    && dest[..m] == Numbers(fs[..m])
    && dest[m..] == before[m..]
  }

  method Store(ghost fs: seq<string>, m: nat, scratch: array<char>, dest: array<int>, ghost before: seq<int>)
    requires Progress(fs, m, scratch, dest, before) && m < dest.Length
    modifies scratch, dest
    ensures Holds(scratch, "")
    ensures dest[..m + 1] == Numbers(fs) && dest[m + 1..] == before[m + 1..]
  {
    var v := Number(scratch, fs[m]);
    dest[m] := v;
    Clear(scratch);
    assert fs == fs[..m] + [fs[m]];
    assert dest[..m + 1] == dest[..m] + [v];
    assert Numbers(fs) == Numbers(fs[..m]) + [v];
  }

  /** One more character. */
  lemma FieldsStep(text: string, n: nat)
    requires n < |text|
    ensures var fs, next := Fields(text[..n]), Fields(text[..n + 1]);
            if text[n] == ',' then next == fs + [""]
            else next == fs[..|fs| - 1] + [fs[|fs| - 1] + [text[n]]]
  {
    assert text[..n + 1][..n] == text[..n];
  }

  /** The buffers never overflow. */
  lemma FieldsBounded(text: string, n: nat, capacity: nat)
    requires n <= |text| && Fits(text, capacity)
    ensures var fs := Fields(text[..n]); |fs| <= capacity && |fs[|fs| - 1]| < SCRATCH_SIZE
  {
    PrefixFields(text, n);
  }

  method Step(c: char, m: nat, scratch: array<char>, dest: array<int>,
              ghost fs: seq<string>, ghost next: seq<string>, ghost before: seq<int>) returns (m': nat)
    requires Progress(fs, m, scratch, dest, before) && scratch.Length == SCRATCH_SIZE
    requires if c == ',' then next == fs + [""] else next == fs[..m] + [fs[m] + [c]]
    requires c != NUL && |next| <= dest.Length && |next[|next| - 1]| < SCRATCH_SIZE
    modifies scratch, dest
    ensures Progress(next, m', scratch, dest, before)
  {
    m' := m;
    if c != ',' {
      Append(scratch, c, fs[m]);
      assert next[..m] == fs[..m];
    } else {
      Store(fs, m, scratch, dest, before);
      m' := m + 1;
      assert next[..m'] == fs;
    }
  }

  /** Stores a list at the front of an array, and leaves the rest and the buffer as they were. */
  method SplitList(text: string, scratch: array<char>, dest: array<int>)
    requires scratch.Length == SCRATCH_SIZE && Holds(scratch, "") && Fits(text, dest.Length)
    modifies scratch, dest
    ensures Holds(scratch, "")
    ensures dest[..] == Stored(text, old(dest[..]))
  {
    ghost var before := dest[..];
    var m := 0;
    for n := 0 to |text|
      invariant Progress(Fields(text[..n]), m, scratch, dest, before)
    {
      FieldsStep(text, n);
      FieldsBounded(text, n + 1, dest.Length);
      m := Step(text[n], m, scratch, dest, Fields(text[..n]), Fields(text[..n + 1]), before);
    }
    assert text[..|text|] == text;
    Store(Fields(text), m, scratch, dest, before);
    assert dest[..] == dest[..m + 1] + dest[m + 1..];
  }

  /** Lists that share the buffer do not disturb one another. */
  method SplitLists(texts: seq<string>, scratch: array<char>, dests: seq<array<int>>)
    requires |texts| == |dests| && scratch.Length == SCRATCH_SIZE && Holds(scratch, "")
    requires forall j, k :: 0 <= j < k < |dests| ==> dests[j] != dests[k]
    requires forall j :: 0 <= j < |texts| ==> Fits(texts[j], dests[j].Length)
    modifies scratch, dests
    ensures Holds(scratch, "")
    ensures forall j :: 0 <= j < |texts| ==> dests[j][..] == Stored(texts[j], old(dests[j][..]))
  {
    for i := 0 to |texts|
      invariant Holds(scratch, "")
      invariant forall j :: 0 <= j < i ==> dests[j][..] == Stored(texts[j], old(dests[j][..]))
      invariant forall j :: i <= j < |texts| ==> dests[j][..] == old(dests[j][..])
    {
      SplitList(texts[i], scratch, dests[i]);
    }
  }
}
