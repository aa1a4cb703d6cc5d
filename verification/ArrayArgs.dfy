/**
 The two renderings of an array argument and back (db.go: splitArrayArg, jsonArrayArg).

 Text is ASCII. The JSON reader covers arrays of unescaped string literals and integers, in the grammar
 of sections 2, 5, 6 and 7 of RFC 8259; any other value reads as "not JSON".
 */
module ArrayArgs {
  import opened Options
  import opened Text

  /** splitArrayArg's answer: nil, a list, or an error. */
  datatype Split = Absent | List(elements: seq<string>) | Rejected

  // --- JSON arrays ---

  predicate IsJsonSpace(c: char) {
    c in {' ', '\t', '\n', '\r'}
  }

  function SkipSpace(s: string): (r: string)
    ensures |r| <= |s|
  {
    if s != [] && IsJsonSpace(s[0]) then SkipSpace(s[1..]) else s
  }

  /** The number of digits at the head of s. */
  function Digits(s: string): (n: nat)
    ensures n <= |s|
    ensures forall i :: 0 <= i < n ==> IsDigit(s[i])
  {
    if s == [] || !IsDigit(s[0]) then 0 else 1 + Digits(s[1..])
  }

  /** The length of the integer at the head of s, 0 if there is none; a leading zero stands alone. */
  function IntegerLength(s: string): (n: nat)
    ensures n <= |s|
  {
    var sign := if s != [] && s[0] == '-' then 1 else 0;
    var digits := if sign < |s| && s[sign] == '0' then 1 else Digits(s[sign..]);
    if digits == 0 then 0 else sign + digits
  }

  /** A character that stands for itself inside a string literal. */
  predicate IsLiteralChar(c: char) {
    c >= ' ' && c != '"' && c != '\\'
  }

  /** The number of literal characters at the head of s. */
  function LiteralChars(s: string): (n: nat)
    ensures n <= |s|
  {
    if s == [] || !IsLiteralChar(s[0]) then 0 else 1 + LiteralChars(s[1..])
  }

  /** The length of the value at the head of s, quotes included; 0 if it is not a value. */
  function ValueLength(s: string): (n: nat)
    ensures n <= |s|
  {
    if s != [] && s[0] == '"' then
      var n := 1 + LiteralChars(s[1..]);
      if n < |s| && s[n] == '"' then n + 1 else 0
    else IntegerLength(s)
  }

  /** The raw elements of the rest of an array, from one element on. */
  function RawElements(s: string): Option<seq<string>>
    decreases |s|
  {
    var n := ValueLength(s);
    var rest := SkipSpace(s[n..]);
    if n == 0 || rest == [] then None
    else if rest[0] == ']' then (if SkipSpace(rest[1..]) == [] then Some([s[..n]]) else None)
    else if rest[0] != ',' then None
    else
      match RawElements(SkipSpace(rest[1..]))
      case None => None
      case Some(tail) => Some([s[..n]] + tail)
  }

  /** json.Unmarshal of a bracketed text into raw messages; None when it is not a JSON array. */
  function RawArray(s: string): Option<seq<string>>
    requires s != []
  {
    var inner := SkipSpace(s[1..]);
    if s[0] != '[' || inner == [] then None
    else if inner[0] == ']' then (if SkipSpace(inner[1..]) == [] then Some([]) else None)
    else RawElements(inner)
  }

  /** An element's value: a string without its quotes, a number as its literal text. */
  function Literal(raw: string): string {
    if |raw| >= 2 && raw[0] == '"' then raw[1..|raw| - 1] else raw
  }

  function Literals(raw: seq<string>): seq<string> {
    seq(|raw|, i requires 0 <= i < |raw| => Literal(raw[i]))
  }

  // --- fields ---

  /** The length of the word at the head of s. */
  function WordLength(s: string): (n: nat)
    ensures n <= |s|
  {
    if s == [] || IsSpace(s[0]) then 0 else 1 + WordLength(s[1..])
  }

  /** strings.Fields: the words of s. */
  function Fields(s: string): seq<string>
    decreases |s|
  {
    if s == [] then []
    else if IsSpace(s[0]) then Fields(s[1..])
    else [s[..WordLength(s)]] + Fields(s[WordLength(s)..])
  }

  // --- splitting ---

  predicate IsBracketed(s: string) {
    s != [] && s[0] == '[' && s[|s| - 1] == ']'
  }

  /** The words between the brackets. */
  function SplitFields(s: string): Split
    requires |s| >= 2
  {
    var inner := TrimSpace(s[1..|s| - 1]);
    if inner == "" then Absent else List(Fields(inner))
  }

  /** The elements of an array argument in either rendering, JSON first. */
  function SplitOf(s: string): Split {
    var t := TrimSpace(s);
    if t == "" then Absent
    else if !IsBracketed(t) then Rejected
    else
      assert |t| >= 2;
      match RawArray(t)
      case Some(raw) => List(Literals(raw))
      case None => SplitFields(t)
  }

  method SplitArrayArg(arg: string) returns (r: Split)
    ensures r == SplitOf(arg)
  {
    hide TrimSpace, RawArray, Fields;
    var s := TrimSpace(arg);
    if s == "" {
      return Absent;
    }
    if s[0] != '[' || s[|s| - 1] != ']' {
      return Rejected;
    }
    var parsed := RawArray(s);
    if parsed.Some? {
      var raw := parsed.value;
      var out: seq<string> := [];
      for i := 0 to |raw|
        invariant out == Literals(raw)[..i]
      {
        var el := raw[i];
        if |el| >= 2 && el[0] == '"' {
          out := out + [el[1..|el| - 1]];
          continue;
        }
        out := out + [el];
      }
      return List(out);
    }
    var inner := TrimSpace(s[1..|s| - 1]);
    if inner == "" {
      return Absent;
    }
    return List(Fields(inner));
  }

  // --- rendering ---

  function Joined(words: seq<string>, sep: string): string {
    if words == [] then ""
    else if |words| == 1 then words[0]
    else words[0] + sep + Joined(words[1..], sep)
  }

  function Quoted(words: seq<string>): seq<string> {
    seq(|words|, i requires 0 <= i < |words| => "\"" + words[i] + "\"")
  }

  function Bracket(inner: string): (s: string)
    ensures |s| == |inner| + 2 && s[0] == '[' && s[|s| - 1] == ']' && s[1..|s| - 1] == inner && s[1..] == inner + "]"
  {
    "[" + inner + "]"
  }

  /** json.Marshal of a list of strings without characters it would escape. */
  function JsonText(words: seq<string>): string {
    Bracket(Joined(Quoted(words), ","))
  }

  /** The same list rendered as JSON numbers. */
  function NumberText(words: seq<string>): string {
    Bracket(Joined(words, ","))
  }

  /** Go's fmt.Sprint form. */
  function SprintText(words: seq<string>): string {
    Bracket(Joined(words, " "))
  }

  /** A character json.Marshal writes as it is. */
  predicate IsPlainChar(c: char) {
    IsLiteralChar(c) && c != '<' && c != '>' && c != '&'
  }

  predicate IsPlain(word: string) {
    forall i :: 0 <= i < |word| ==> IsPlainChar(word[i])
  }

  predicate AllPlain(words: seq<string>) {
    forall i :: 0 <= i < |words| ==> IsPlain(words[i])
  }

  // --- tokens ---

  predicate IsDecimal(t: string) {
    t != [] && forall i :: 0 <= i < |t| ==> IsDigit(t[i])
  }

  /** A decimal without a leading zero. */
  predicate IsCanonical(t: string) {
    IsDecimal(t) && (t[0] != '0' || |t| == 1)
  }

  predicate IsHexDigit(c: char) {
    IsDigit(c) || 'a' <= c <= 'f' || 'A' <= c <= 'F'
  }

  /** 0x and at least one digit. */
  predicate IsHex(t: string) {
    |t| >= 3 && t[0] == '0' && t[1] == 'x' && forall i :: 2 <= i < |t| ==> IsHexDigit(t[i])
  }

  predicate IsToken(t: string) {
    IsDecimal(t) || IsHex(t)
  }

  predicate AllTokens(words: seq<string>) {
    forall i :: 0 <= i < |words| ==> IsToken(words[i])
  }

  predicate AllCanonical(words: seq<string>) {
    forall i :: 0 <= i < |words| ==> IsCanonical(words[i])
  }

  // --- the JSON renderings read back ---

  lemma {:induction false} LiteralRun(word: string, rest: string)
    requires forall i :: 0 <= i < |word| ==> IsLiteralChar(word[i])
    requires rest == [] || !IsLiteralChar(rest[0])
    ensures LiteralChars(word + rest) == |word|
  {
    if word == [] {
      assert word + rest == rest;
    } else {
      LiteralRun(word[1..], rest);
      assert (word + rest)[1..] == word[1..] + rest;
    }
  }

  lemma {:induction false} DigitRun(word: string, rest: string)
    requires forall i :: 0 <= i < |word| ==> IsDigit(word[i])
    requires rest == [] || !IsDigit(rest[0])
    ensures Digits(word + rest) == |word|
  {
    if word == [] {
      assert word + rest == rest;
    } else {
      DigitRun(word[1..], rest);
      assert (word + rest)[1..] == word[1..] + rest;
    }
  }

  lemma QuotedValue(word: string, rest: string)
    requires IsPlain(word)
    ensures ValueLength("\"" + word + "\"" + rest) == |word| + 2
    ensures Literal("\"" + word + "\"") == word
  {
    var s := "\"" + word + "\"" + rest;
    assert s[1..] == word + ("\"" + rest);
    LiteralRun(word, "\"" + rest);
  }

  lemma CanonicalValue(word: string, rest: string)
    requires IsCanonical(word) && (rest == [] || !IsDigit(rest[0]))
    ensures ValueLength(word + rest) == |word| && Literal(word) == word
  {
    var s := word + rest;
    assert s[0] == word[0];
    DigitRun(word, rest);
    assert s[0..] == s;
  }

  /** The word reads as one value, whatever separator follows it. */
  ghost predicate IsValue(word: string) {
    && word != [] && !IsJsonSpace(word[0]) && word[0] != ']'
    && forall rest: string :: (rest == [] || !IsDigit(rest[0])) ==> ValueLength(word + rest) == |word|
  }

  ghost predicate AreValues(raw: seq<string>) {
    forall i :: 0 <= i < |raw| ==> IsValue(raw[i])
  }

  lemma ValueBefore(word: string, c: char, tail: string)
    requires IsValue(word) && !IsDigit(c)
    ensures var s := word + [c] + tail;
            ValueLength(s) == |word| && s[..|word|] == word && s[|word|..] == [c] + tail
  {
    hide ValueLength;
    assert word + [c] + tail == word + ([c] + tail);
  }

  lemma LastElement(word: string)
    requires IsValue(word)
    ensures RawElements(word + "]") == Some([word])
  {
    hide ValueLength, IsValue;
    ValueBefore(word, ']', "");
    assert word + "]" == word + [']'] + "";
    assert word != [] by { NotSkipped(word, ""); }
  }

  lemma NextElement(word: string, tail: string)
    requires IsValue(word) && SkipSpace(tail) == tail
    ensures RawElements(word + "," + tail) ==
            match RawElements(tail) case None => None case Some(more) => Some([word] + more)
  {
    hide ValueLength, IsValue;
    ValueBefore(word, ',', tail);
    assert word != [] by { NotSkipped(word, ""); }
    assert [','] + tail == "," + tail;
    assert ("," + tail)[1..] == tail;
  }

  lemma NotSkipped(word: string, rest: string)
    requires IsValue(word)
    ensures SkipSpace(word + rest) == word + rest && (word + rest)[0] == word[0] != ']' && word != []
  {
    hide ValueLength;
  }

  lemma {:induction false} ElementsReadBack(raw: seq<string>)
    requires raw != [] && AreValues(raw)
    ensures var s := Joined(raw, ",") + "]";
            RawElements(s) == Some(raw) && SkipSpace(s) == s && s[0] != ']'
    decreases |raw|
  {
    hide ValueLength, IsValue, RawElements, SkipSpace;
    if |raw| == 1 {
      LastElement(raw[0]);
      NotSkipped(raw[0], "]");
      assert raw == [raw[0]];
    } else {
      var tail := Joined(raw[1..], ",") + "]";
      ElementsReadBack(raw[1..]);
      NextElement(raw[0], tail);
      NotSkipped(raw[0], "," + tail);
      assert Joined(raw, ",") + "]" == raw[0] + "," + tail;
      assert raw[0] + "," + tail == raw[0] + ("," + tail);
      assert raw == [raw[0]] + raw[1..];
    }
  }

  /** A bracketed, comma-separated list of values is the array of those values. */
  lemma ArrayReadsBack(raw: seq<string>)
    requires AreValues(raw)
    ensures RawArray(Bracket(Joined(raw, ","))) == Some(raw)
  {
    hide RawElements, IsValue, Bracket;
    if raw != [] {
      ElementsReadBack(raw);
    }
  }

  lemma Untrimmed(s: string)
    requires s != [] && !IsSpace(s[0]) && !IsSpace(s[|s| - 1])
    ensures TrimSpace(s) == s
  {
    assert TrimLeft(s) == s;
  }

  lemma Bracketed(inner: string)
    ensures TrimSpace(Bracket(inner)) == Bracket(inner)
  {
    hide TrimSpace, Bracket;
    Untrimmed(Bracket(inner));
  }

  lemma QuotedIsValue(word: string)
    requires IsPlain(word)
    ensures IsValue("\"" + word + "\"")
  {
    forall rest: string | rest == [] || !IsDigit(rest[0])
      ensures ValueLength("\"" + word + "\"" + rest) == |word| + 2
    {
      QuotedValue(word, rest);
    }
  }

  lemma CanonicalIsValue(word: string)
    requires IsCanonical(word)
    ensures IsValue(word)
  {
    forall rest: string | rest == [] || !IsDigit(rest[0])
      ensures ValueLength(word + rest) == |word|
    {
      CanonicalValue(word, rest);
    }
  }

  /** Any list of plain strings survives its JSON form. */
  lemma JsonTextReadsBack(words: seq<string>)
    requires AllPlain(words)
    ensures SplitOf(JsonText(words)) == List(words)
  {
    hide IsPlain, IsValue, Literal, TrimSpace, RawArray, Bracket;
    var raw := Quoted(words);
    Bracketed(Joined(raw, ","));
    forall i | 0 <= i < |raw|
      ensures IsValue(raw[i]) && Literal(raw[i]) == words[i]
    {
      QuotedIsValue(words[i]);
      QuotedValue(words[i], "");
    }
    ArrayReadsBack(raw);
    assert Literals(raw) == words;
  }

  /** Canonical decimals survive as JSON numbers, digit by digit. */
  lemma NumberTextReadsBack(words: seq<string>)
    requires AllCanonical(words)
    ensures SplitOf(NumberText(words)) == List(words)
  {
    hide IsCanonical, IsValue, Literal, TrimSpace, RawArray, Bracket;
    Bracketed(Joined(words, ","));
    forall i | 0 <= i < |words|
      ensures IsValue(words[i]) && Literal(words[i]) == words[i]
    {
      CanonicalIsValue(words[i]);
      CanonicalValue(words[i], "");
    }
    ArrayReadsBack(words);
    assert Literals(words) == words;
  }

  // --- the fmt.Sprint rendering read back ---

  lemma {:induction false} WordRun(word: string, rest: string)
    requires forall i :: 0 <= i < |word| ==> !IsSpace(word[i])
    requires rest == [] || IsSpace(rest[0])
    ensures WordLength(word + rest) == |word|
  {
    if word == [] {
      assert word + rest == rest;
    } else {
      WordRun(word[1..], rest);
      assert (word + rest)[1..] == word[1..] + rest;
    }
  }

  predicate IsWord(word: string) {
    word != [] && forall i :: 0 <= i < |word| ==> !IsSpace(word[i])
  }

  lemma {:induction false} FieldsReadBack(words: seq<string>)
    requires words != [] && forall i :: 0 <= i < |words| ==> IsWord(words[i])
    ensures var s := Joined(words, " "); Fields(s) == words && s != [] && !IsSpace(s[0]) && !IsSpace(s[|s| - 1])
    decreases |words|
  {
    hide WordLength;
    var s := Joined(words, " ");
    var w := words[0];
    if |words| == 1 {
      WordRun(w, "");
      assert w + "" == w && s[|w|..] == "";
    } else {
      var tail := Joined(words[1..], " ");
      FieldsReadBack(words[1..]);
      WordRun(w, " " + tail);
      assert s == w + (" " + tail);
      assert s[|w|..] == " " + tail && s[..|w|] == w && (" " + tail)[1..] == tail;
      assert Fields(" " + tail) == Fields(tail);
      assert words == [w] + words[1..];
    }
  }

  lemma TokenIsWord(t: string)
    requires IsToken(t)
    ensures IsWord(t)
  {
    forall i | 0 <= i < |t| ensures !IsSpace(t[i]) { assert IsDigit(t[i]) || IsHexDigit(t[i]) || t[i] == 'x'; }
  }

  /** JSON reads the head of a space-separated list either as its first word or as something no
      separator follows. */
  lemma TokenAsJson(t: string, rest: string)
    requires IsToken(t) && (rest == [] || !IsDigit(rest[0]))
    ensures var n := ValueLength(t + rest);
            0 < n <= |t| && (n < |t| ==> (t + rest)[n] != ']' && (t + rest)[n] != ',' && !IsJsonSpace((t + rest)[n]))
            && Literal(t) == t
  {
    var s := t + rest;
    assert s[0] == t[0] && s[0..] == s;
    if IsDecimal(t) && t[0] != '0' {
      DigitRun(t, rest);
    } else {
      assert |t| > 1 ==> s[1] == t[1];
    }
  }

  /** Two or more words separated by spaces are not a JSON array. */
  lemma SpacedIsNotJson(t: string, tail: string)
    requires IsToken(t) && tail != [] && IsDigit(tail[0])
    ensures RawElements(t + " " + tail) == None
  {
    hide ValueLength, IsToken;
    TokenAsJson(t, " " + tail);
    assert t + " " + tail == t + (" " + tail);
    var s := t + " " + tail;
    var n := ValueLength(s);
    if n == |t| {
      assert s[n..] == " " + tail && (" " + tail)[1..] == tail;
      assert SkipSpace(" " + tail) == tail;
    } else {
      assert SkipSpace(s[n..]) == s[n..];
    }
  }

  /** One word is the JSON array of that word, or none at all. */
  lemma SingleAsJson(t: string)
    requires IsToken(t)
    ensures RawElements(t + "]") == Some([t]) || RawElements(t + "]") == None
  {
    hide ValueLength, IsToken;
    TokenAsJson(t, "]");
    var s := t + "]";
    var n := ValueLength(s);
    if n == |t| {
      assert s[n..] == "]" && s[..n] == t;
    } else {
      assert SkipSpace(s[n..]) == s[n..];
    }
  }

  lemma TokenHead(words: seq<string>)
    requires words != [] && AllTokens(words)
    ensures var s := Joined(words, " "); s != [] && IsDigit(s[0])
  {
    assert IsToken(words[0]);
  }

  /** The fmt.Sprint form read as JSON. */
  lemma SprintAsJson(words: seq<string>)
    requires words != [] && AllTokens(words)
    ensures var r := RawArray(SprintText(words)); r == None || (r == Some(words) && Literals(words) == words)
  {
    hide RawElements, IsToken, ValueLength, Bracket;
    var inner := Joined(words, " ") + "]";
    TokenHead(words);
    assert SkipSpace(inner) == inner;
    if |words| == 1 {
      SingleAsJson(words[0]);
      TokenAsJson(words[0], "");
      assert Literals(words) == words && words == [words[0]];
    } else {
      TokenHead(words[1..]);
      var tail := Joined(words[1..], " ") + "]";
      assert inner == words[0] + " " + tail;
      SpacedIsNotJson(words[0], tail);
    }
  }

  /** Decimal and hexadecimal tokens survive the fmt.Sprint form. */
  lemma SprintTextReadsBack(words: seq<string>)
    requires AllTokens(words)
    ensures SplitOf(SprintText(words)) == List(words)
  {
    hide IsToken, TrimSpace, Fields, Joined, RawElements, RawArray, Bracket;
    Bracketed(Joined(words, " "));
    if words == [] {
      EmptyReadsBack();
    } else {
      forall i | 0 <= i < |words| ensures IsWord(words[i]) { TokenIsWord(words[i]); }
      SprintAsJson(words);
      FieldsReadBack(words);
      Untrimmed(Joined(words, " "));
    }
  }

  lemma EmptyReadsBack()
    ensures SplitOf(SprintText([])) == List([])
  {
    hide TrimSpace, RawArray, Bracket;
    ArrayReadsBack([]);
    Bracketed("");
    assert Literals([]) == [];
  }

  // --- the JSON column ---

  /** A JSONB column value: NULL, a text, or an error. */
  datatype JsonColumn = Null | Json(text: string) | Failed

  function Lowered(words: seq<string>): seq<string> {
    seq(|words|, i requires 0 <= i < |words| => ToLower(words[i]))
  }

  /** jsonArrayArg: either rendering as one JSON array of strings. */
  function JsonColumnOf(arg: string, lower: bool): JsonColumn {
    match SplitOf(arg)
    case Rejected => Failed
    case Absent => Null
    case List(els) => Json(JsonText(if lower then Lowered(els) else els))
  }

  method JsonArrayArg(arg: string, lower: bool) returns (r: JsonColumn)
    ensures r == JsonColumnOf(arg, lower)
  {
    hide JsonText, SplitOf, ToLower;
    var split := SplitArrayArg(arg);
    if split.Rejected? {
      return Failed;
    }
    if split.Absent? {
      return Null;
    }
    var els := split.elements;
    if lower {
      for i := 0 to |els|
        invariant |els| == |split.elements|
        invariant forall j :: 0 <= j < i ==> els[j] == ToLower(split.elements[j])
        invariant forall j :: i <= j < |els| ==> els[j] == split.elements[j]
      {
        els := els[i := ToLower(els[i])];
      }
      assert els == Lowered(split.elements);
    }
    return Json(JsonText(els));
  }

  lemma LoweredPlain(words: seq<string>)
    requires AllPlain(words)
    ensures AllPlain(Lowered(words))
  {
    forall i | 0 <= i < |words|
      ensures IsPlain(Lowered(words)[i])
    {
      assert IsPlain(words[i]);
    }
  }

  /** Splitting the stored column again gives the stored elements. */
  lemma ColumnResplits(arg: string, lower: bool)
    requires SplitOf(arg).List? && AllPlain(SplitOf(arg).elements)
    ensures var els, column := SplitOf(arg).elements, JsonColumnOf(arg, lower);
            column.Json? && SplitOf(column.text) == List(if lower then Lowered(els) else els)
  {
    hide SplitOf, JsonText, AllPlain, Lowered;
    var els := SplitOf(arg).elements;
    LoweredPlain(els);
    JsonTextReadsBack(if lower then Lowered(els) else els);
  }

  lemma TokensArePlain(words: seq<string>)
    requires AllTokens(words)
    ensures AllPlain(words)
  {
    forall i | 0 <= i < |words|
      ensures IsPlain(words[i])
    {
      TokenIsPlain(words[i]);
    }
  }

  lemma TokenIsPlain(t: string)
    requires IsToken(t)
    ensures IsPlain(t)
  {
    forall i | 0 <= i < |t| ensures IsPlainChar(t[i]) { assert IsDigit(t[i]) || IsHexDigit(t[i]) || t[i] == 'x'; }
  }

  /** Whichever rendering the server used, a token list is split alike and stored alike; decimals also as numbers. */
  lemma RenderingsAgree(words: seq<string>, lower: bool)
    requires AllTokens(words)
    ensures SplitOf(JsonText(words)) == SplitOf(SprintText(words)) == List(words)
    ensures JsonColumnOf(JsonText(words), lower) == JsonColumnOf(SprintText(words), lower)
    ensures AllCanonical(words) ==> SplitOf(NumberText(words)) == List(words)
  {
    hide SplitOf, JsonText, SprintText, NumberText, AllPlain, AllTokens, AllCanonical;
    TokensArePlain(words);
    JsonTextReadsBack(words);
    SprintTextReadsBack(words);
    if AllCanonical(words) { NumberTextReadsBack(words); }
  }

  // --- signed decimals ---

  /** neg: the debit of a decimal string. */
  function Neg(v: string): string {
    if v == "" || v == "0" then "0"
    else if v[0] == '-' then v[1..]
    else "-" + v
  }

  function Natural(digits: string): int
    requires forall i :: 0 <= i < |digits| ==> IsDigit(digits[i])
  {
    if |digits| == 0 then 0
    else 10 * Natural(digits[..|digits| - 1]) + digits[|digits| - 1] as int - '0' as int
  }

  /** An optional minus sign and digits. */
  predicate IsNumeral(v: string) {
    IsDecimal(v) || (v != "" && v[0] == '-' && IsDecimal(v[1..]))
  }

  function Amount(v: string): int
    requires IsNumeral(v)
  {
    if v[0] == '-' then -Natural(v[1..]) else Natural(v)
  }

  /** neg negates the amount of every decimal string. */
  lemma NegNegates(v: string)
    requires IsNumeral(v)
    ensures IsNumeral(Neg(v)) && Amount(Neg(v)) == -Amount(v)
  {
    if v == "0" {
      assert Natural("0") == 0 by { assert "0"[..0] == ""; }
    } else if v[0] != '-' {
      assert ("-" + v)[1..] == v;
    }
  }
}
