/** The plugin option string "key=value;key2=value2" and the configuration path in it. */
module Options {
  import opened Types

  // ------------------------------------------------------------ string library

  /** White space as Go's unicode.IsSpace has it. */
  predicate IsSpace(c: char) {
    || '\t' <= c <= '\r' || c == ' ' || c == '\U{0085}' || c == '\U{00A0}' || c == '\U{1680}'
    || '\U{2000}' <= c <= '\U{200A}' || c == '\U{2028}' || c == '\U{2029}' || c == '\U{202F}'
    || c == '\U{205F}' || c == '\U{3000}'
  }

  function TrimLeft(s: string): string {
    if s != "" && IsSpace(s[0]) then TrimLeft(s[1..]) else s
  }

  function TrimRight(s: string): string {
    if s != "" && IsSpace(s[|s| - 1]) then TrimRight(s[..|s| - 1]) else s
  }

  function Trim(s: string): string {
    TrimRight(TrimLeft(s))
  }

  predicate Trimmed(s: string) {
    s == "" || (!IsSpace(s[0]) && !IsSpace(s[|s| - 1]))
  }

  function LowerChar(c: char): char {
    if 'A' <= c <= 'Z' then c - 'A' + 'a' else c
  }

  function Lower(s: string): (t: string)
    ensures |t| == |s| && forall i :: 0 <= i < |s| ==> t[i] == LowerChar(s[i])
  {
    if s == "" then "" else [LowerChar(s[0])] + Lower(s[1..])
  }

  /** The pieces between the separators; there is always at least one. */
  function Split(s: string, sep: char): (ps: seq<string>)
    ensures |ps| > 0
  {
    if s == "" then [""]
    else
      var rest := Split(s[1..], sep);
      if s[0] == sep then [""] + rest else [[s[0]] + rest[0]] + rest[1..]
  }

  datatype Halves = Halves(before: string, after: string)

  /** The text before and after the first separator. */
  function Cut(s: string, sep: char): Halves {
    if s == "" then Halves("", "")
    else if s[0] == sep then Halves("", s[1..])
    else
      var h := Cut(s[1..], sep);
      Halves([s[0]] + h.before, h.after)
  }

  // ------------------------------------------------------------------ parsing

  /** What one piece adds to the options. */
  function AddPiece(opts: map<string, string>, piece: string): map<string, string> {
    var pair := Trim(piece);
    if pair == "" then opts
    else
      var h := Cut(pair, '=');
      opts[Lower(Trim(h.before)) := Trim(h.after)]
  }

  function AddPieces(opts: map<string, string>, pieces: seq<string>): map<string, string>
    decreases |pieces|
  {
    if pieces == [] then opts else AddPieces(AddPiece(opts, pieces[0]), pieces[1..])
  }

  function Parse(s: string): map<string, string> {
    AddPieces(map[], Split(s, ';'))
  }

  method ParsePluginOptions(s: string) returns (opts: map<string, string>)
    ensures opts == Parse(s)
  {
    opts := map[];
    var pieces := Split(s, ';');
    for i := 0 to |pieces|
      invariant AddPieces(opts, pieces[i..]) == Parse(s)
    {
      var pair := Trim(pieces[i]);
      assert pieces[i..][1..] == pieces[i + 1..];
      if pair == "" {
        continue;
      }
      var h := Cut(pair, '=');
      opts := opts[Lower(Trim(h.before)) := Trim(h.after)];
    }
  }

  predicate HasSuffix(s: string, suffix: string) {
    |s| >= |suffix| && s[|s| - |suffix|..] == suffix
  }

  function Lookup(opts: map<string, string>, key: string): string {
    if key in opts then opts[key] else ""
  }

  function ConfigPath(raw: string): string {
    var r := Trim(raw);
    if r == "" then ""
    else if '=' !in r && HasSuffix(Lower(r), ".json") then r
    else PathOption(Parse(r))
  }

  /** "config" wins over "c" unless it is empty. */
  function PathOption(opts: map<string, string>): string {
    if Lookup(opts, "config") != "" then Lookup(opts, "config") else Lookup(opts, "c")
  }

  // ------------------------------------------------------------- composition

  lemma {:induction false} SplitConcat(a: string, b: string, sep: char)
    ensures Split(a + [sep] + b, sep) == Split(a, sep) + Split(b, sep)
    decreases |a|
  {
    if a == "" {
      assert a + [sep] + b == [sep] + b;
      assert ([sep] + b)[1..] == b;
    } else {
      assert (a + [sep] + b)[1..] == a[1..] + [sep] + b;
      SplitConcat(a[1..], b, sep);
    }
  }

  lemma {:induction false} AddPiecesConcat(opts: map<string, string>, ps: seq<string>, qs: seq<string>)
    ensures AddPieces(opts, ps + qs) == AddPieces(AddPieces(opts, ps), qs)
    decreases |ps|
  {
    if ps == [] {
      assert ps + qs == qs;
    } else {
      assert (ps + qs)[1..] == ps[1..] + qs;
      AddPiecesConcat(AddPiece(opts, ps[0]), ps[1..], qs);
    }
  }

  lemma {:induction false} AddPiecesOverrides(base: map<string, string>, opts: map<string, string>, ps: seq<string>)
    ensures AddPieces(base + opts, ps) == base + AddPieces(opts, ps)
    decreases |ps|
  {
    if ps != [] {
      assert AddPiece(base + opts, ps[0]) == base + AddPiece(opts, ps[0]);
      AddPiecesOverrides(base, AddPiece(opts, ps[0]), ps[1..]);
    }
  }

  /** Parsing is compositional: options after a semicolon override those before it. */
  lemma ParseConcat(a: string, b: string)
    ensures Parse(a + ";" + b) == Parse(a) + Parse(b)
  {
    SplitConcat(a, b, ';');
    AddPiecesConcat(map[], Split(a, ';'), Split(b, ';'));
    AddPiecesOverrides(Parse(a), map[], Split(b, ';'));
    assert Parse(a) + map[] == Parse(a);
  }

  // -------------------------------------------------------------- round trip

  predicate CanonicalKey(k: string) {
    Trimmed(k) && Lower(k) == k && ';' !in k && '=' !in k
  }

  predicate CanonicalValue(v: string) {
    Trimmed(v) && ';' !in v
  }

  /** The option maps that print unambiguously. */
  ghost predicate Canonical(m: map<string, string>) {
    forall k :: k in m ==> CanonicalKey(k) && CanonicalValue(m[k])
  }

  datatype Entry = Entry(key: string, value: string)

  /** A key in any case, and a value, that a piece can spell out. */
  predicate PlainEntry(e: Entry) {
    Trimmed(e.key) && ';' !in e.key && '=' !in e.key && CanonicalValue(e.value)
  }

  predicate CanonicalEntry(e: Entry) {
    CanonicalKey(e.key) && CanonicalValue(e.value)
  }

  function PrintEntry(e: Entry): string {
    e.key + "=" + e.value
  }

  function Print(es: seq<Entry>): string {
    if es == [] then ""
    else if |es| == 1 then PrintEntry(es[0])
    else PrintEntry(es[0]) + ";" + Print(es[1..])
  }

  function MapOf(es: seq<Entry>): map<string, string> {
    if es == [] then map[] else map[es[0].key := es[0].value] + MapOf(es[1..])
  }

  lemma {:induction false} TrimOfTrimmed(s: string)
    requires Trimmed(s)
    ensures Trim(s) == s
  {
  }

  lemma {:induction false} SplitFree(s: string, sep: char)
    requires sep !in s
    ensures Split(s, sep) == [s]
    decreases |s|
  {
    if s != "" {
      SplitFree(s[1..], sep);
      assert [s[0]] + s[1..] == s;
    }
  }

  lemma {:induction false} CutAtFirst(k: string, v: string, sep: char)
    requires sep !in k
    ensures Cut(k + [sep] + v, sep) == Halves(k, v)
    decreases |k|
  {
    if k == "" {
      assert k + [sep] + v == [sep] + v;
    } else {
      assert (k + [sep] + v)[1..] == k[1..] + [sep] + v;
      CutAtFirst(k[1..], v, sep);
    }
  }

  lemma ParseEntry(e: Entry)
    requires PlainEntry(e)
    ensures Parse(PrintEntry(e)) == map[Lower(e.key) := e.value]
    ensures Trimmed(PrintEntry(e))
  {
    var s := PrintEntry(e);
    assert ';' !in s;
    SplitFree(s, ';');
    assert Trimmed(s) by {
      assert s[0] == if e.key == "" then '=' else e.key[0];
      assert s[|s| - 1] == if e.value == "" then '=' else e.value[|e.value| - 1];
    }
    TrimOfTrimmed(s);
    assert s != "";
    CutAtFirst(e.key, e.value, '=');
    TrimOfTrimmed(e.key);
    TrimOfTrimmed(e.value);
    assert AddPiece(map[], s) == map[Lower(e.key) := e.value];
    assert AddPieces(map[], [s]) == AddPieces(AddPiece(map[], s), []) by {
      assert [s][1..] == [];
    }
  }

  /** The texts are the same but for the case of ASCII letters. */
  predicate SameButCase(a: string, b: string) {
    |a| == |b| && forall i :: 0 <= i < |a| ==> SameLetter(a[i], b[i])
  }

  predicate SameLetter(c: char, d: char) {
    c == d || CasesOf(c, d) || CasesOf(d, c)
  }

  predicate CasesOf(upper: char, lower: char) {
    'A' <= upper <= 'Z' && lower as int == upper as int + 32
  }

  lemma LettersMeet(c: char, d: char)
    ensures LowerChar(c) == LowerChar(d) <==> SameLetter(c, d)
  {
  }

  lemma LowerMeets(a: string, b: string)
    ensures Lower(a) == Lower(b) <==> SameButCase(a, b)
  {
    if |a| == |b| {
      forall i | 0 <= i < |a| ensures Lower(a)[i] == Lower(b)[i] <==> SameLetter(a[i], b[i]) {
        LettersMeet(a[i], b[i]);
      }
    }
  }

  /** Two keys name the same option exactly if they differ in nothing but case, and the value
      is kept as it is. */
  lemma KeysMeetExactly(e: Entry, f: Entry)
    requires PlainEntry(e) && PlainEntry(f)
    ensures Parse(PrintEntry(e)) == Parse(PrintEntry(f)) <==> SameButCase(e.key, f.key) && e.value == f.value
  {
    ParseEntry(e);
    ParseEntry(f);
    LowerMeets(e.key, f.key);
    var m, n := map[Lower(e.key) := e.value], map[Lower(f.key) := f.value];
    if m == n {
      assert Lower(e.key) in n;
      assert Lower(e.key) == Lower(f.key);
      assert m[Lower(e.key)] == n[Lower(f.key)];
    }
  }

  /** A piece without "=" is a key with an empty value. */
  lemma FlagPiece(k: string)
    requires Trimmed(k) && k != "" && ';' !in k && '=' !in k
    ensures Parse(k) == map[Lower(k) := ""]
  {
    SplitFree(k, ';');
    TrimOfTrimmed(k);
    CutFacts(k, '=');
    TrimOfTrimmed("");
    assert AddPiece(map[], k) == map[Lower(k) := ""];
    assert AddPieces(map[], [k]) == AddPieces(AddPiece(map[], k), []) by {
      assert [k][1..] == [];
    }
  }

  /** Printing entries and parsing the text gives the map they stand for, whatever their
      order; of entries with the same key the last one counts. */
  lemma {:induction false} ParsePrint(es: seq<Entry>)
    requires forall e :: e in es ==> CanonicalEntry(e)
    ensures Parse(Print(es)) == MapOf(es)
    decreases |es|
  {
    if es == [] {
      assert Split("", ';') == [""];
      assert [""][1..] == [];
    } else if |es| == 1 {
      assert CanonicalEntry(es[0]);
      ParseEntry(es[0]);
      assert MapOf(es[1..]) == map[];
    } else {
      assert CanonicalEntry(es[0]);
      ParseEntry(es[0]);
      ParsePrint(es[1..]);
      ParseConcat(PrintEntry(es[0]), Print(es[1..]));
    }
  }

  /** `es` lists the entries of `m`, each key once, in some order. */
  ghost predicate Lists(es: seq<Entry>, m: map<string, string>) {
    && (forall i, j :: 0 <= i < j < |es| ==> es[i].key != es[j].key)
    && (forall e :: e in es <==> e.key in m && m[e.key] == e.value)
  }

  lemma ListingTail(es: seq<Entry>, m: map<string, string>)
    requires es != [] && Lists(es, m)
    ensures Lists(es[1..], m - {es[0].key})
    ensures es[0].key in m && m[es[0].key] == es[0].value
  {
    var e, rest := es[0], m - {es[0].key};
    assert e in es;
    forall f ensures f in es[1..] <==> f.key in rest && rest[f.key] == f.value {
      assert f in es <==> f == e || f in es[1..];
    }
  }

  lemma {:induction false} MapOfListing(es: seq<Entry>, m: map<string, string>)
    requires Lists(es, m)
    ensures MapOf(es) == m
    decreases |es|
  {
    if es == [] {
      NothingListed(m);
    } else {
      ListingTail(es, m);
      MapOfListing(es[1..], m - {es[0].key});
    }
  }

  lemma NothingListed(m: map<string, string>)
    requires Lists([], m)
    ensures m == map[]
  {
    assert forall k :: k in m ==> Entry(k, m[k]) in [];
  }

  /** Round trip: any canonical option map, printed in any order, parses back. */
  lemma RoundTrip(m: map<string, string>, es: seq<Entry>)
    requires Canonical(m) && Lists(es, m)
    ensures Parse(Print(es)) == m
  {
    forall e | e in es ensures CanonicalEntry(e) {
      assert e.key in m;
    }
    ParsePrint(es);
    MapOfListing(es, m);
  }

  // ---------------------------------------------------- what parsing can yield

  lemma {:induction false} Listing(m: map<string, string>) returns (es: seq<Entry>)
    ensures Lists(es, m)
    decreases |m|
  {
    if m == map[] {
      es := [];
    } else {
      var k :| k in m;
      var rest := m - {k};
      assert |rest.Keys| < |m.Keys| by {
        assert m.Keys == rest.Keys + {k};
      }
      var tail := Listing(rest);
      es := [Entry(k, m[k])] + tail;
      forall i | 0 <= i < |tail| ensures tail[i].key != k {
        assert tail[i] in tail;
      }
      forall e ensures e in es <==> e.key in m && m[e.key] == e.value {
        assert e in es <==> e == Entry(k, m[k]) || e in tail;
      }
    }
  }

  lemma {:induction false} TrimLeftFacts(s: string)
    ensures TrimLeft(s) == "" || !IsSpace(TrimLeft(s)[0])
    ensures forall c :: c in TrimLeft(s) ==> c in s
    decreases |s|
  {
    if s != "" && IsSpace(s[0]) {
      TrimLeftFacts(s[1..]);
    }
  }

  lemma {:induction false} TrimRightFacts(s: string)
    ensures TrimRight(s) <= s
    ensures TrimRight(s) == "" || !IsSpace(TrimRight(s)[|TrimRight(s)| - 1])
    decreases |s|
  {
    if s != "" && IsSpace(s[|s| - 1]) {
      TrimRightFacts(s[..|s| - 1]);
    }
  }

  predicate AllSpace(s: string) {
    forall i :: 0 <= i < |s| ==> IsSpace(s[i])
  }

  lemma {:induction false} TrimLeftMeans(s: string) returns (a: string)
    ensures s == a + TrimLeft(s) && AllSpace(a)
    decreases |s|
  {
    if s != "" && IsSpace(s[0]) {
      a := TrimLeftMeans(s[1..]);
      assert s == [s[0]] + s[1..];
      a := [s[0]] + a;
    } else {
      a := "";
    }
  }

  lemma {:induction false} TrimRightMeans(s: string) returns (b: string)
    ensures s == TrimRight(s) + b && AllSpace(b)
    decreases |s|
  {
    if s != "" && IsSpace(s[|s| - 1]) {
      b := TrimRightMeans(s[..|s| - 1]);
      assert s == s[..|s| - 1] + [s[|s| - 1]];
      b := b + [s[|s| - 1]];
    } else {
      b := "";
    }
  }

  /** Trimming takes all surrounding white space away, and nothing else. */
  lemma TrimMeans(s: string) returns (a: string, b: string)
    ensures s == a + Trim(s) + b && AllSpace(a) && AllSpace(b) && Trimmed(Trim(s))
  {
    a := TrimLeftMeans(s);
    b := TrimRightMeans(TrimLeft(s));
    TrimFacts(s);
    assert s == a + (Trim(s) + b);
  }

  lemma TrimFacts(s: string)
    ensures Trimmed(Trim(s))
    ensures forall c :: c in Trim(s) ==> c in s
  {
    TrimLeftFacts(s);
    TrimRightFacts(TrimLeft(s));
  }

  lemma {:induction false} CutFacts(s: string, sep: char)
    ensures sep !in Cut(s, sep).before
    ensures sep !in s ==> Cut(s, sep) == Halves(s, "")
    ensures forall c :: c in Cut(s, sep).before || c in Cut(s, sep).after ==> c in s
    decreases |s|
  {
    if s != "" && s[0] != sep {
      CutFacts(s[1..], sep);
    }
  }

  lemma {:induction false} SplitFacts(s: string, sep: char)
    ensures forall p :: p in Split(s, sep) ==> sep !in p
    decreases |s|
  {
    if s != "" {
      SplitFacts(s[1..], sep);
    }
  }

  lemma LowerFacts(s: string)
    ensures Trimmed(s) ==> Trimmed(Lower(s))
    ensures Lower(Lower(s)) == Lower(s)
    ensures ';' !in s ==> ';' !in Lower(s)
    ensures '=' !in s ==> '=' !in Lower(s)
  {
  }

  lemma PieceKeepsCanonical(opts: map<string, string>, piece: string)
    requires Canonical(opts) && ';' !in piece
    ensures Canonical(AddPiece(opts, piece))
  {
    var pair := Trim(piece);
    var h := Cut(pair, '=');
    TrimFacts(piece);
    CutFacts(pair, '=');
    TrimFacts(h.before);
    TrimFacts(h.after);
    LowerFacts(Trim(h.before));
  }

  lemma {:induction false} PiecesKeepCanonical(opts: map<string, string>, ps: seq<string>)
    requires Canonical(opts) && forall p :: p in ps ==> ';' !in p
    ensures Canonical(AddPieces(opts, ps))
    decreases |ps|
  {
    if ps != [] {
      PieceKeepsCanonical(opts, ps[0]);
      PiecesKeepCanonical(AddPiece(opts, ps[0]), ps[1..]);
    }
  }

  /** The canonical maps are exactly those that parsing can yield, so printing and
      parsing again normalises any option string. */
  lemma ParseYieldsExactlyCanonical(m: map<string, string>)
    ensures Canonical(m) <==> exists s :: Parse(s) == m
  {
    if Canonical(m) {
      var es := Listing(m);
      RoundTrip(m, es);
    }
    forall s | Parse(s) == m ensures Canonical(m) {
      SplitFacts(s, ';');
      PiecesKeepCanonical(map[], Split(s, ';'));
    }
  }

  // ------------------------------------------------------ configuration path

  lemma PieceOfTrimmed(opts: map<string, string>, p: string, q: string)
    requires Trim(p) == Trim(q)
    ensures AddPiece(opts, p) == AddPiece(opts, q)
  {
  }

  lemma {:induction false} TrimAppend(s: string, c: char)
    requires IsSpace(c)
    ensures Trim(s + [c]) == Trim(s)
    decreases |s|
  {
    if s == "" {
      assert s + [c] == [c];
      assert TrimLeft([c]) == TrimLeft([c][1..]) == "";
    } else if IsSpace(s[0]) {
      assert (s + [c])[1..] == s[1..] + [c];
      TrimAppend(s[1..], c);
      assert TrimLeft(s + [c]) == TrimLeft(s[1..] + [c]);
    } else {
      assert TrimLeft(s + [c]) == s + [c];
      assert (s + [c])[..|s|] == s;
      assert TrimRight(s + [c]) == TrimRight(s);
    }
  }

  /** Space in front of an option string belongs to its first piece, space behind it to its
      last one, and pieces are trimmed anyway. */
  lemma ParseAfterSpace(c: char, s: string)
    requires IsSpace(c)
    ensures Parse([c] + s) == Parse(s)
  {
    var ps := Split(s, ';');
    assert ([c] + s)[1..] == s;
    assert Split([c] + s, ';') == [[c] + ps[0]] + ps[1..];
    assert ([c] + ps[0])[1..] == ps[0];
    PieceOfTrimmed(map[], [c] + ps[0], ps[0]);
    assert ([[c] + ps[0]] + ps[1..])[1..] == ps[1..];
  }

  lemma SplitAppendFirst(c: char, sep: char)
    requires c != sep
    ensures Split("", sep) == [] + [""] && Split("" + [c], sep) == [] + ["" + [c]]
  {
    assert "" + [c] == [c];
    assert [c][1..] == "";
    assert [c] + "" == [c];
  }

  /** A character behind the text joins its last piece. */
  lemma {:induction false} SplitAppend(s: string, c: char, sep: char) returns (ps: seq<string>, p: string)
    requires c != sep
    ensures Split(s, sep) == ps + [p] && Split(s + [c], sep) == ps + [p + [c]]
    decreases |s|
  {
    if s == "" {
      ps, p := [], "";
      SplitAppendFirst(c, sep);
    } else {
      assert (s + [c])[0] == s[0] && (s + [c])[1..] == s[1..] + [c];
      var qs, q := SplitAppend(s[1..], c, sep);
      ps, p := qs, q;
      if s[0] == sep {
        ps := [""] + qs;
      } else if qs == [] {
        p := [s[0]] + q;
        assert [s[0]] + (q + [c]) == p + [c];
      } else {
        ps := [[s[0]] + qs[0]] + qs[1..];
        assert (qs + [q])[1..] == qs[1..] + [q];
        assert (qs + [q + [c]])[1..] == qs[1..] + [q + [c]];
      }
    }
  }

  lemma ParseBeforeSpace(s: string, c: char)
    requires IsSpace(c)
    ensures Parse(s + [c]) == Parse(s)
  {
    var ps, p := SplitAppend(s, c, ';');
    AddPiecesConcat(map[], ps, [p]);
    AddPiecesConcat(map[], ps, [p + [c]]);
    TrimAppend(p, c);
    PieceOfTrimmed(AddPieces(map[], ps), p + [c], p);
    assert [p][1..] == [] && [p + [c]][1..] == [];
  }

  lemma {:induction false} ParseOfTrimLeft(s: string)
    ensures Parse(TrimLeft(s)) == Parse(s)
    decreases |s|
  {
    if s != "" && IsSpace(s[0]) {
      ParseOfTrimLeft(s[1..]);
      ParseAfterSpace(s[0], s[1..]);
      assert [s[0]] + s[1..] == s;
    }
  }

  lemma {:induction false} ParseOfTrimRight(s: string)
    ensures Parse(TrimRight(s)) == Parse(s)
    decreases |s|
  {
    if s != "" && IsSpace(s[|s| - 1]) {
      ParseOfTrimRight(s[..|s| - 1]);
      ParseBeforeSpace(s[..|s| - 1], s[|s| - 1]);
      assert s[..|s| - 1] + [s[|s| - 1]] == s;
    }
  }

  /** Surrounding space never matters to the options. */
  lemma ParseOfTrim(s: string)
    ensures Parse(Trim(s)) == Parse(s)
  {
    ParseOfTrimRight(TrimLeft(s));
    ParseOfTrimLeft(s);
  }

  lemma SuffixMeans(s: string, suffix: string)
    ensures HasSuffix(s, suffix) <==> exists stem :: s == stem + suffix
  {
    if HasSuffix(s, suffix) {
      assert s == s[..|s| - |suffix|] + suffix;
    }
  }

  /** The text is a lone path: no assignment in it, and a .json suffix in any case. */
  predicate BarePath(s: string) {
    '=' !in s && HasSuffix(Lower(s), ".json")
  }

  /** The configuration path of every option string: the trimmed string itself if that is a
      lone path, and otherwise what the options as they stand say. */
  lemma ConfigPathOf(raw: string)
    ensures ConfigPath(raw) == if BarePath(Trim(raw)) then Trim(raw) else PathOption(Parse(raw))
  {
    ParseOfTrim(raw);
    if Trim(raw) == "" {
      assert Split("", ';') == [""];
      assert [""][1..] == [];
    }
  }

  lemma {:induction false} TrimLeftKeeps(s: string, c: char)
    requires c in s && !IsSpace(c)
    ensures c in TrimLeft(s)
    decreases |s|
  {
    if s != "" && IsSpace(s[0]) {
      assert s == [s[0]] + s[1..];
      TrimLeftKeeps(s[1..], c);
    }
  }

  lemma {:induction false} TrimRightKeeps(s: string, c: char)
    requires c in s && !IsSpace(c)
    ensures c in TrimRight(s)
    decreases |s|
  {
    if s != "" && IsSpace(s[|s| - 1]) {
      assert s == s[..|s| - 1] + [s[|s| - 1]];
      TrimRightKeeps(s[..|s| - 1], c);
    }
  }

  /** A string with an assignment in it is never a lone path. */
  lemma ConfigPathOfAssignments(raw: string)
    requires '=' in raw
    ensures ConfigPath(raw) == PathOption(Parse(raw))
  {
    TrimLeftKeeps(raw, '=');
    TrimRightKeeps(TrimLeft(raw), '=');
    ConfigPathOf(raw);
  }

  /** The documented forms "c=path" and "config=path", alone or behind any other options:
      "config" always wins, "c" wins unless there is another "config". */
  lemma DocumentedForms(others: string, e: Entry)
    requires CanonicalEntry(e) && e.value != "" && (e.key == "c" || e.key == "config")
    ensures ConfigPath(PrintEntry(e)) == e.value
    ensures e.key == "config" || Lookup(Parse(others), "config") == "" ==>
              ConfigPath(others + ";" + PrintEntry(e)) == e.value
  {
    var s := PrintEntry(e);
    assert s[|e.key|] == '=';
    ParseEntry(e);
    ConfigPathOfAssignments(s);
    ParseConcat(others, s);
    assert (others + ";" + s)[|others| + 1 + |e.key|] == '=';
    ConfigPathOfAssignments(others + ";" + s);
  }

  /** Blank pieces set nothing: white space alone has no options. */
  lemma BlankIsNothing(s: string)
    requires AllSpace(s)
    ensures Parse(s) == map[]
  {
    TrimFacts(s);
    ParseOfTrim(s);
    assert Trim(s) == "" by {
      assert forall c :: c in s ==> IsSpace(c);
      assert forall i :: 0 <= i < |Trim(s)| ==> Trim(s)[i] in s;
    }
    assert AddPieces(map[], [""]) == AddPieces(AddPiece(map[], ""), []) by {
      assert [""][1..] == [];
    }
  }

  // What the options of a string are, piece by piece.

  predicate HasKey(piece: string, key: string) {
    Trim(piece) != "" && Lower(Trim(Cut(Trim(piece), '=').before)) == key
  }

  function ValueIn(piece: string): string {
    Trim(Cut(Trim(piece), '=').after)
  }

  /** What the last of the pieces that set the key sets it to. */
  function LastValue(ps: seq<string>, key: string): Option<string> {
    if ps == [] then None
    else if HasKey(ps[|ps| - 1], key) then Some(ValueIn(ps[|ps| - 1]))
    else LastValue(ps[..|ps| - 1], key)
  }

  lemma AddedLast(opts: map<string, string>, ps: seq<string>)
    requires ps != []
    ensures AddPieces(opts, ps) == AddPiece(AddPieces(opts, ps[..|ps| - 1]), ps[|ps| - 1])
  {
    var p := ps[|ps| - 1];
    assert ps == ps[..|ps| - 1] + [p];
    AddPiecesConcat(opts, ps[..|ps| - 1], [p]);
    assert [p][1..] == [];
  }

  lemma {:induction false} LastPieceWins(ps: seq<string>, key: string)
    ensures key in AddPieces(map[], ps) <==> LastValue(ps, key).Some?
    ensures key in AddPieces(map[], ps) ==> AddPieces(map[], ps)[key] == LastValue(ps, key).value
    decreases |ps|
  {
    if ps != [] {
      AddedLast(map[], ps);
      LastPieceWins(ps[..|ps| - 1], key);
    }
  }

  /** The options of every string: a key has a value if and only if some piece sets it, and
      the last piece that does decides. */
  lemma ParseMeans(s: string, key: string)
    ensures key in Parse(s) <==> LastValue(Split(s, ';'), key).Some?
    ensures key in Parse(s) ==> Parse(s)[key] == LastValue(Split(s, ';'), key).value
  {
    LastPieceWins(Split(s, ';'), key);
  }
}
