/** Evidence pointers: the encoder that names a value by its key path and the resolver that follows the
    name, after sections 3 and 4 of RFC 6901. */
module JsonPointer {
  import opened Common

  datatype Json = Null | Bool(truth: bool) | Number(number: real) | Text(text: string)
                | Array(items: seq<Json>) | Object(fields: map<string, Json>)

  /** One step of a key path: a field name or an array position. */
  datatype Token = Key(name: string) | Index(position: nat)

  datatype Error = PathNotJsonPointer | PathNotInEvidencePack | EmptyEvidenceAtPath

  // ---------------------------------------------------------------- text

  /** `s.replace(c, with)` for one character. */
  function ReplaceChar(s: string, c: char, with: string): string {
    if s == "" then "" else (if s[0] == c then with else [s[0]]) + ReplaceChar(s[1..], c, with)
  }

  /** `s.replace(a + b, with)` for two characters, scanning from the left without overlap. */
  function ReplacePair(s: string, a: char, b: char, with: char): string {
    if s == "" then ""
    else if |s| >= 2 && s[0] == a && s[1] == b then [with] + ReplacePair(s[2..], a, b, with)
    else [s[0]] + ReplacePair(s[1..], a, b, with)
  }

  function Escape(s: string): string {
    ReplaceChar(ReplaceChar(s, '~', "~0"), '/', "~1")
  }

  function Unescape(s: string): string {
    ReplacePair(ReplacePair(s, '~', '1', '/'), '~', '0', '~')
  }

  function Join(parts: seq<string>): string {
    if parts == [] then "" else if |parts| == 1 then parts[0] else parts[0] + "/" + Join(parts[1..])
  }

  function Split(s: string): (parts: seq<string>)
    ensures parts != []
  {
    if s == "" then [""]
    else
      var rest := Split(s[1..]);
      if s[0] == '/' then [""] + rest else [[s[0]] + rest[0]] + rest[1..]
  }

  predicate IsDigit(c: char) {
    '0' <= c <= '9'
  }

  predicate AllDigits(s: string) {
    s != "" && forall i :: 0 <= i < |s| ==> IsDigit(s[i])
  }

  /** `int(s)` on decimal digits. */
  function Value(s: string): nat
    requires forall i :: 0 <= i < |s| ==> IsDigit(s[i])
  {
    if s == "" then 0
    else
      assert IsDigit(s[|s| - 1]);
      10 * Value(s[..|s| - 1]) + (s[|s| - 1] as int - '0' as int)
  }

  /** `str(n)`. */
  function Digits(n: nat): string {
    if n < 10 then [(n + '0' as int) as char] else Digits(n / 10) + [(n % 10 + '0' as int) as char]
  }

  // ---------------------------------------------------------------- encoder and resolver

  function TextOf(t: Token): string {
    match t
    case Key(name) => name
    case Index(position) => Digits(position)
  }

  function Escaped(texts: seq<string>): seq<string> {
    seq(|texts|, i requires 0 <= i < |texts| => Escape(texts[i]))
  }

  function Texts(tokens: seq<Token>): seq<string> {
    seq(|tokens|, i requires 0 <= i < |tokens| => TextOf(tokens[i]))
  }

  /** `pointer`. */
  function Encode(tokens: seq<Token>): string {
    "/" + Join(Escaped(Texts(tokens)))
  }

  function Lookup(node: Json, token: string): Result<Json, Error> {
    match node
    case Object(fields) => if token in fields then Ok(fields[token]) else Err(PathNotInEvidencePack)
    case Array(items) => if AllDigits(token) && Value(token) < |items| then Ok(items[Value(token)]) else Err(PathNotInEvidencePack)
    case _ => Err(PathNotInEvidencePack)
  }

  function Walk(node: Json, parts: seq<string>): Result<Json, Error> {
    if parts == [] then Ok(node)
    else
      var next :- Lookup(node, Unescape(parts[0]));
      Walk(next, parts[1..])
  }

  predicate Empty(v: Json) {
    v == Null || v == Text("")
  }

  /** `_pointer`. */
  function Resolve(pack: Json, path: string): Result<Json, Error> {
    if path == "" || path[0] != '/' || path == "/" then Err(PathNotJsonPointer)
    else
      var v :- Walk(pack, Split(path[1..]));
      if Empty(v) then Err(EmptyEvidenceAtPath) else Ok(v)
  }

  /** `_pointer` as it runs, with a reassigned node. */
  method Pointer(pack: Json, path: string) returns (r: Result<Json, Error>)
    ensures r == Resolve(pack, path)
  {
    if path == "" || path[0] != '/' || path == "/" {
      return Err(PathNotJsonPointer);
    }
    var node, parts := pack, Split(path[1..]);
    for i := 0 to |parts|
      invariant Walk(pack, parts) == Walk(node, parts[i..])
    {
      var token := Unescape(parts[i]);
      assert parts[i..][1..] == parts[i + 1..];
      var next := Lookup(node, token);
      if next.Err? {
        return Err(PathNotInEvidencePack);
      }
      node := next.value;
    }
    r := if Empty(node) then Err(EmptyEvidenceAtPath) else Ok(node);
  }

  /** The value at a key path, read structurally: fields of objects and positions of arrays. */
  function Stored(node: Json, tokens: seq<Token>): Option<Json> {
    if tokens == [] then Some(node)
    else
      match (node, tokens[0])
      case (Object(fields), Key(name)) => if name in fields then Stored(fields[name], tokens[1..]) else None
      case (Array(items), Index(i)) => if i < |items| then Stored(items[i], tokens[1..]) else None
      case _ => None
  }

  // ---------------------------------------------------------------- escaping

  function EscapeChar(c: char): string {
    if c == '~' then "~0" else if c == '/' then "~1" else [c]
  }

  lemma {:induction false} ReplaceCharConcat(s: string, t: string, c: char, with: string)
    ensures ReplaceChar(s + t, c, with) == ReplaceChar(s, c, with) + ReplaceChar(t, c, with)
  {
    if s == "" {
      assert s + t == t;
    } else {
      ReplaceCharConcat(s[1..], t, c, with);
      var head, rest := if s[0] == c then with else [s[0]], ReplaceChar(s[1..], c, with);
      assert (s + t)[0] == s[0] && (s + t)[1..] == s[1..] + t;
      hide ReplaceChar;
      assert head + (rest + ReplaceChar(t, c, with)) == (head + rest) + ReplaceChar(t, c, with);
    }
  }

  lemma ReplaceCharOne(x: char, c: char, with: string)
    ensures ReplaceChar([x], c, with) == if x == c then with else [x]
  {
    assert [x][1..] == "";
  }

  lemma EscapeOne(c: char)
    ensures Escape([c]) == EscapeChar(c)
  {
    ReplaceCharOne(c, '~', "~0");
    if c == '~' {
      assert "~0" == "~" + "0";
      ReplaceCharConcat("~", "0", '/', "~1");
      ReplaceCharOne('~', '/', "~1");
      ReplaceCharOne('0', '/', "~1");
    } else {
      ReplaceCharOne(c, '/', "~1");
    }
  }

  /** The two passes act as one pass over characters. */
  lemma EscapeCons(s: string)
    requires s != ""
    ensures Escape(s) == EscapeChar(s[0]) + Escape(s[1..])
  {
    assert s == [s[0]] + s[1..];
    ReplaceCharConcat([s[0]], s[1..], '~', "~0");
    ReplaceCharConcat(ReplaceChar([s[0]], '~', "~0"), ReplaceChar(s[1..], '~', "~0"), '/', "~1");
    EscapeOne(s[0]);
  }

  /** A pair that starts the text is replaced; a first character that starts no pair is kept. */
  lemma ReplacePairHead(c: char, s: string, a: char, b: char, with: char)
    ensures c != a || s == "" || s[0] != b ==> ReplacePair([c] + s, a, b, with) == [c] + ReplacePair(s, a, b, with)
    ensures ReplacePair([a, b] + s, a, b, with) == [with] + ReplacePair(s, a, b, with)
  {
    assert ([c] + s)[1..] == s && ([a, b] + s)[2..] == s;
    assert s != "" ==> ([c] + s)[1] == s[0];
  }

  /** What one escaped character becomes under the decoder, in front of any text. */
  lemma UnescapeCons(c: char, s: string)
    ensures Unescape(EscapeChar(c) + s) == [c] + Unescape(s)
  {
    var mid := ReplacePair(s, '~', '1', '/');
    if c == '~' {
      assert "~0" + s == ['~'] + (['0'] + s);
      ReplacePairHead('~', ['0'] + s, '~', '1', '/');
      ReplacePairHead('0', s, '~', '1', '/');
      assert ['~'] + (['0'] + mid) == ['~', '0'] + mid;
      ReplacePairHead('~', mid, '~', '0', '~');
    } else {
      if c == '/' {
        assert "~1" + s == ['~', '1'] + s;
      }
      ReplacePairHead(c, s, '~', '1', '/');
      ReplacePairHead(c, mid, '~', '0', '~');
    }
  }

  /** Decoding an escaped token gives the token back. */
  lemma {:induction false} EscapeRoundTrip(s: string)
    ensures Unescape(Escape(s)) == s
  {
    if s != "" {
      EscapeCons(s);
      EscapeRoundTrip(s[1..]);
      UnescapeCons(s[0], Escape(s[1..]));
    }
  }

  /** The grammar of section 3: `~` only as `~0` or `~1`, and no bare slash. */
  predicate WellEscaped(s: string) {
    if s == "" then true
    else if s[0] == '~' then |s| >= 2 && s[1] in "01" && WellEscaped(s[2..])
    else s[0] != '/' && WellEscaped(s[1..])
  }

  lemma WellEscapedHead(c: char, s: string)
    ensures WellEscaped(EscapeChar(c) + s) == WellEscaped(s)
  {
    var t := EscapeChar(c) + s;
    assert t[|EscapeChar(c)|..] == s;
  }

  lemma {:induction false} EscapeWellEscaped(s: string)
    ensures WellEscaped(Escape(s)) && '/' !in Escape(s)
  {
    if s != "" {
      EscapeCons(s);
      EscapeWellEscaped(s[1..]);
      WellEscapedHead(s[0], Escape(s[1..]));
    }
  }

  lemma {:induction false} ReEscape(s: string)
    requires WellEscaped(s)
    ensures Escape(Unescape(s)) == s
  {
    if s != "" {
      var c := if s[0] != '~' then s[0] else if s[1] == '0' then '~' else '/';
      var rest := s[|EscapeChar(c)|..];
      assert s == EscapeChar(c) + rest;
      ReEscape(rest);
      UnescapeCons(c, rest);
      EscapeCons([c] + Unescape(rest));
    }
  }

  /** A raw token survives decoding and re-encoding exactly when it follows the grammar. */
  lemma ReEscapeIff(s: string)
    ensures Escape(Unescape(s)) == s <==> WellEscaped(s)
  {
    EscapeWellEscaped(Unescape(s));
    if WellEscaped(s) {
      ReEscape(s);
    }
  }

  // ---------------------------------------------------------------- splitting

  lemma {:induction false} SplitPrefix(p: string, rest: string)
    requires '/' !in p
    ensures Split(p + rest) == [p + Split(rest)[0]] + Split(rest)[1..]
  {
    if p == "" {
      assert p + rest == rest && p + Split(rest)[0] == Split(rest)[0];
    } else {
      assert (p + rest)[1..] == p[1..] + rest && (p + rest)[0] in p;
      SplitPrefix(p[1..], rest);
      assert [p[0]] + (p[1..] + Split(rest)[0]) == p + Split(rest)[0];
    }
  }

  lemma {:induction false} SplitJoin(parts: seq<string>)
    requires parts != [] && forall i :: 0 <= i < |parts| ==> '/' !in parts[i]
    ensures Split(Join(parts)) == parts
  {
    var p := parts[0];
    if |parts| == 1 {
      SplitPrefix(p, "");
      assert p + "" == p;
    } else {
      SplitJoin(parts[1..]);
      var rest := "/" + Join(parts[1..]);
      assert p + "/" + Join(parts[1..]) == p + rest;
      assert rest[1..] == Join(parts[1..]);
      SplitPrefix(p, rest);
      assert Split(rest) == [""] + parts[1..] && p + "" == p;
    }
  }

  lemma EscapedSplits(texts: seq<string>)
    requires texts != []
    ensures Split(Join(Escaped(texts))) == Escaped(texts)
  {
    forall i | 0 <= i < |texts| ensures '/' !in Escaped(texts)[i] {
      EscapeWellEscaped(texts[i]);
    }
    SplitJoin(Escaped(texts));
  }

  lemma {:induction false} JoinSplit(s: string)
    ensures Join(Split(s)) == s
  {
    if s != "" {
      JoinSplit(s[1..]);
      var rest := Split(s[1..]);
      if s[0] == '/' {
        assert ([""] + rest)[1..] == rest;
        assert Join([""] + rest) == "/" + Join(rest);
      } else {
        JoinHead(s[0], rest);
      }
      assert s == [s[0]] + s[1..];
    }
  }

  lemma JoinHead(c: char, rest: seq<string>)
    requires rest != []
    ensures Join([[c] + rest[0]] + rest[1..]) == [c] + Join(rest)
  {
    var parts := [[c] + rest[0]] + rest[1..];
    assert parts[1..] == rest[1..];
    if |rest| > 1 {
      assert ([c] + rest[0]) + "/" + Join(rest[1..]) == [c] + (rest[0] + "/" + Join(rest[1..]));
    }
  }

  // ---------------------------------------------------------------- numbers

  lemma ValueSnoc(s: string, c: char)
    requires (forall i :: 0 <= i < |s| ==> IsDigit(s[i])) && IsDigit(c)
    ensures (forall i :: 0 <= i < |s + [c]| ==> IsDigit((s + [c])[i])) && Value(s + [c]) == 10 * Value(s) + (c as int - '0' as int)
  {
    assert (s + [c])[..|s|] == s;
  }

  lemma {:induction false} DigitsValue(n: nat)
    ensures AllDigits(Digits(n)) && Value(Digits(n)) == n && (n > 0 ==> Digits(n)[0] != '0')
  {
    if n >= 10 {
      DigitsValue(n / 10);
      ValueSnoc(Digits(n / 10), (n % 10 + '0' as int) as char);
    } else {
      ValueSnoc("", (n + '0' as int) as char);
      assert "" + Digits(n) == Digits(n);
    }
  }

  /** The array-index grammar of section 4: `0`, or digits that do not begin with one. */
  predicate NoLeadingZero(s: string) {
    s == "0" || (s != "" && s[0] != '0')
  }

  lemma {:induction false} PositiveValue(s: string)
    requires AllDigits(s) && s[0] != '0'
    ensures Value(s) > 0 && (|s| > 1 ==> Value(s) >= 10)
  {
    if |s| == 1 {
      assert s[..0] == "" && Value(s) == s[0] as int - '0' as int;
    } else {
      PositiveValue(s[..|s| - 1]);
    }
  }

  lemma {:induction false} DigitsOfValue(s: string)
    requires AllDigits(s) && s[0] != '0'
    ensures Digits(Value(s)) == s
  {
    PositiveValue(s);
    var init, d := s[..|s| - 1], s[|s| - 1] as int - '0' as int;
    assert s == init + [s[|s| - 1]];
    if |s| == 1 {
      assert init == "" && Value(s) == d;
    } else {
      DigitsOfValue(init);
      assert Value(s) / 10 == Value(init) && Value(s) % 10 == d;
    }
  }

  /** An index text is the one `str` writes exactly when it has no leading zero. */
  lemma CanonicalIff(s: string)
    requires AllDigits(s)
    ensures Digits(Value(s)) == s <==> NoLeadingZero(s)
  {
    DigitsValue(Value(s));
    if s == "0" {
      assert s[..0] == "" && Value(s) == 0;
    } else if s[0] != '0' {
      DigitsOfValue(s);
    } else {
      assert Digits(0) == "0";
    }
  }

  function Zeros(k: nat): string {
    if k == 0 then "" else Zeros(k - 1) + "0"
  }

  lemma {:induction false} ZerosAreDigits(k: nat)
    ensures (forall i :: 0 <= i < |Zeros(k)| ==> IsDigit(Zeros(k)[i])) && Value(Zeros(k)) == 0
  {
    if k > 0 {
      ZerosAreDigits(k - 1);
      ValueSnoc(Zeros(k - 1), '0');
    }
  }

  lemma {:induction false} ZerosKeepValue(k: nat, s: string)
    requires forall i :: 0 <= i < |s| ==> IsDigit(s[i])
    ensures (forall i :: 0 <= i < |Zeros(k) + s| ==> IsDigit((Zeros(k) + s)[i])) && Value(Zeros(k) + s) == Value(s)
  {
    ZerosAreDigits(k);
    if s == "" {
      assert Zeros(k) + s == Zeros(k);
    } else {
      var init, c := s[..|s| - 1], s[|s| - 1];
      ZerosKeepValue(k, init);
      ValueSnoc(Zeros(k) + init, c);
      assert Zeros(k) + s == (Zeros(k) + init) + [c];
    }
  }

  /** The resolver also accepts leading zeros, which the standard forbids: any number of them names the
      same array position. */
  lemma LeadingZerosAccepted(items: seq<Json>, i: nat, k: nat)
    requires i < |items|
    ensures Lookup(Array(items), Zeros(k) + Digits(i)) == Ok(items[i])
    ensures k > 0 ==> !NoLeadingZero(Zeros(k) + Digits(i))
  {
    DigitsValue(i);
    ZerosKeepValue(k, Digits(i));
    if k > 0 {
      ZerosHead(k);
      assert (Zeros(k) + Digits(i))[0] == '0' && |Zeros(k) + Digits(i)| >= 2;
    }
  }

  lemma {:induction false} ZerosHead(k: nat)
    requires k > 0
    ensures |Zeros(k)| == k && Zeros(k)[0] == '0'
  {
    if k > 1 {
      ZerosHead(k - 1);
    } else {
      assert Zeros(0) + "0" == "0";
    }
  }

  // ---------------------------------------------------------------- round trip

  /** The empty path and the single empty token, which both encode to the refused pointer `/`. */
  predicate Degenerate(texts: seq<string>) {
    texts == [] || texts == [""]
  }

  lemma EncodesToRoot(texts: seq<string>)
    ensures Join(Escaped(texts)) == "" <==> Degenerate(texts)
  {
    if texts != [] {
      EscapedSplits(texts);
      if Join(Escaped(texts)) == "" {
        assert |texts| == |Escaped(texts)| == 1 && Escaped(texts)[0] == "";
        EscapeRoundTrip(texts[0]);
      }
    }
  }

  lemma {:induction false} WalkStored(node: Json, tokens: seq<Token>)
    requires Stored(node, tokens).Some?
    ensures Walk(node, Escaped(Texts(tokens))) == Ok(Stored(node, tokens).value)
  {
    if tokens != [] {
      var t, parts := tokens[0], Escaped(Texts(tokens));
      EscapeRoundTrip(TextOf(t));
      assert parts[1..] == Escaped(Texts(tokens[1..]));
      if t.Index? {
        DigitsValue(t.position);
      }
      var next := Lookup(node, TextOf(t)).value;
      WalkStored(next, tokens[1..]);
    }
  }

  /** Encoding the key path of a stored value and resolving it returns that value, or reports it as empty;
      only the degenerate paths are refused. */
  lemma PointerRoundTrip(pack: Json, tokens: seq<Token>)
    requires Stored(pack, tokens).Some?
    ensures Resolve(pack, Encode(tokens))
            == if Degenerate(Texts(tokens)) then Err(PathNotJsonPointer)
               else if Empty(Stored(pack, tokens).value) then Err(EmptyEvidenceAtPath)
               else Ok(Stored(pack, tokens).value)
  {
    var texts := Texts(tokens);
    EncodesToRoot(texts);
    assert Encode(tokens)[1..] == Join(Escaped(texts));
    if !Degenerate(texts) {
      EscapedSplits(texts);
      WalkStored(pack, tokens);
    }
  }

  /** Every part follows the grammar and every array position has no leading zero. */
  predicate Conforming(node: Json, parts: seq<string>)
    requires Walk(node, parts).Ok?
  {
    parts == []
    || (var token := Unescape(parts[0]);
        && WellEscaped(parts[0]) && (node.Array? ==> NoLeadingZero(token))
        && Conforming(Lookup(node, token).value, parts[1..]))
  }

  /** The key path a resolved pointer stands for. */
  function PathOf(node: Json, parts: seq<string>): (tokens: seq<Token>)
    requires Walk(node, parts).Ok?
    ensures |tokens| == |parts|
  {
    if parts == [] then []
    else
      var token := Unescape(parts[0]);
      [if node.Array? then Index(Value(token)) else Key(token)] + PathOf(Lookup(node, token).value, parts[1..])
  }

  lemma {:induction false} WalkReads(node: Json, parts: seq<string>)
    requires Walk(node, parts).Ok?
    ensures Stored(node, PathOf(node, parts)) == Some(Walk(node, parts).value)
  {
    hide Unescape;
    if parts != [] {
      var next := Lookup(node, Unescape(parts[0])).value;
      WalkReads(next, parts[1..]);
      assert PathOf(node, parts)[1..] == PathOf(next, parts[1..]);
    }
  }

  lemma {:induction false} WalkConforms(node: Json, parts: seq<string>)
    requires Walk(node, parts).Ok?
    ensures Escaped(Texts(PathOf(node, parts))) == parts <==> Conforming(node, parts)
  {
    hide Unescape, Escape, WellEscaped, NoLeadingZero, Digits, Value;
    if parts != [] {
      var next, tokens := Lookup(node, Unescape(parts[0])).value, PathOf(node, parts);
      WalkConforms(next, parts[1..]);
      assert tokens[1..] == PathOf(next, parts[1..]);
      var back := Escaped(Texts(tokens));
      assert back[1..] == Escaped(Texts(tokens[1..])) && back == [back[0]] + back[1..] && parts == [parts[0]] + parts[1..];
      HeadReads(node, parts[0]);
    }
  }

  lemma HeadReads(node: Json, part: string)
    requires Lookup(node, Unescape(part)).Ok?
    ensures var token := Unescape(part);
            var t := if node.Array? then Index(Value(token)) else Key(token);
            Escape(TextOf(t)) == part <==> WellEscaped(part) && (node.Array? ==> NoLeadingZero(token))
  {
    var token := Unescape(part);
    ReEscapeIff(part);
    if node.Array? {
      CanonicalIff(token);
      var text := Digits(Value(token));
      EscapeRoundTrip(text);
      EscapeWellEscaped(text);
    }
  }

  /** Whatever pointer resolves, its value is stored at a key path, and encoding that path gives the
      pointer back exactly when the pointer conforms to the standard. */
  lemma ResolvedIsStored(pack: Json, path: string)
    requires Resolve(pack, path).Ok?
    ensures var parts := Split(path[1..]);
            && Stored(pack, PathOf(pack, parts)) == Some(Resolve(pack, path).value)
            && (Encode(PathOf(pack, parts)) == path <==> Conforming(pack, parts))
  {
    var parts := Split(path[1..]);
    var tokens := PathOf(pack, parts);
    WalkReads(pack, parts);
    WalkConforms(pack, parts);
    JoinSplit(path[1..]);
    assert path == "/" + path[1..];
    assert tokens != [];
    EscapedSplits(Texts(tokens));
    assert Encode(tokens)[1..] == Join(Escaped(Texts(tokens)));
  }

  // ---------------------------------------------------------------- distinct paths

  function Keys(names: seq<string>): seq<Token> {
    seq(|names|, i requires 0 <= i < |names| => Key(names[i]))
  }

  lemma {:induction false} EscapedInjective(a: seq<string>, b: seq<string>)
    requires Escaped(a) == Escaped(b)
    ensures a == b
  {
    assert |a| == |Escaped(a)| == |b|;
    forall i | 0 <= i < |a| ensures a[i] == b[i] {
      assert Escaped(a)[i] == Escaped(b)[i];
      EscapeRoundTrip(a[i]);
      EscapeRoundTrip(b[i]);
    }
  }

  /** Two key paths of names share a pointer only when they are equal, or are the two degenerate paths. */
  lemma PointersDistinct(a: seq<string>, b: seq<string>)
    ensures Encode(Keys(a)) == Encode(Keys(b)) <==> a == b || (Degenerate(a) && Degenerate(b))
  {
    assert Texts(Keys(a)) == a && Texts(Keys(b)) == b;
    EncodesToRoot(a);
    EncodesToRoot(b);
    assert Encode(Keys(a))[1..] == Join(Escaped(a)) && Encode(Keys(b))[1..] == Join(Escaped(b));
    if Encode(Keys(a)) == Encode(Keys(b)) && !Degenerate(a) {
      EscapedSplits(a);
      EscapedSplits(b);
      EscapedInjective(a, b);
    }
  }
}
