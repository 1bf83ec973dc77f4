/**
 * `JSON.stringify` and `JSON.parse` restricted to arrays of strings, the
 * only JSON the chain table writes (its `rpcs` column).
 */
module Json {
  import opened Wrappers

  function EscapeChar(c: char): string
  {
    if c == '"' || c == '\\' then ['\\', c] else [c]
  }

  /** Body of a JSON string literal for `s`. */
  function Escape(s: string): string
  {
    if s == [] then "" else EscapeChar(s[0]) + Escape(s[1..])
  }

  function Quote(s: string): string
  {
    "\"" + Escape(s) + "\""
  }

  /** The comma-separated literals between the brackets. */
  function Elements(xs: seq<string>): (r: string)
    ensures xs != [] ==> |r| > 0 && r[0] == '"'
  {
    if xs == [] then ""
    else if |xs| == 1 then Quote(xs[0])
    else Quote(xs[0]) + "," + Elements(xs[1..])
  }

  /** `JSON.stringify(xs)` for an array of strings (no whitespace). */
  function Stringify(xs: seq<string>): string
  {
    "[" + Elements(xs) + "]"
  }

  /**
   * Reads a string literal whose opening quote has been consumed: the
   * decoded text and the input left after the closing quote.
   */
  function ReadString(t: string): (r: Option<(string, string)>)
    ensures r.Some? ==> |r.value.1| < |t|
  {
    if t == [] then None
    else if t[0] == '"' then Some(("", t[1..]))
    else if t[0] == '\\' then
      if |t| >= 2 && (t[1] == '"' || t[1] == '\\') then
        match ReadString(t[2..])
        case None => None
        case Some((s, rest)) => Some(([t[1]] + s, rest))
      else None
    else
      match ReadString(t[1..])
      case None => None
      case Some((s, rest)) => Some(([t[0]] + s, rest))
  }

  /** Reads `"..." (, "...")* ]`, the body of a non-empty array. */
  function ReadElements(t: string): Option<seq<string>>
    decreases |t|
  {
    if t == [] || t[0] != '"' then None
    else
      match ReadString(t[1..])
      case None => None
      case Some((s, rest)) =>
        if rest == "]" then Some([s])
        else if |rest| > 0 && rest[0] == ',' then
          match ReadElements(rest[1..])
          case None => None
          case Some(ss) => Some([s] + ss)
        else None
  }

  /** `JSON.parse(t)` where a string array is expected; `None` is a thrown SyntaxError. */
  function Parse(t: string): Option<seq<string>>
  {
    if t == "[]" then Some([])
    else if |t| > 0 && t[0] == '[' then ReadElements(t[1..])
    else None
  }

  lemma {:induction false} ReadEscaped(s: string, rest: string)
    ensures ReadString(Escape(s) + "\"" + rest) == Some((s, rest))
  {
    if s == [] {
      assert Escape(s) + "\"" + rest == "\"" + rest;
    } else {
      var more := Escape(s[1..]) + "\"" + rest;
      ReadEscaped(s[1..], rest);
      EscapeCons(s, rest);
      ReadEscapedChar(s[0], more);
      assert [s[0]] + s[1..] == s;
    }
  }

  lemma EscapeCons(s: string, rest: string)
    requires s != []
    ensures Escape(s) + "\"" + rest == EscapeChar(s[0]) + (Escape(s[1..]) + "\"" + rest)
  {
  }

  /** Reading an escaped character decodes it and goes on with the rest. */
  lemma ReadEscapedChar(c: char, more: string)
    ensures ReadString(EscapeChar(c) + more)
         == match ReadString(more)
            case None => None
            case Some((x, rest)) => Some(([c] + x, rest))
  {
    var t := EscapeChar(c) + more;
    if c == '"' || c == '\\' {
      assert t[0] == '\\' && t[1] == c && t[2..] == more;
    } else {
      assert t[0] == c && t[1..] == more;
    }
  }

  lemma {:induction false} ReadElementsOf(xs: seq<string>)
    requires xs != []
    ensures ReadElements(Elements(xs) + "]") == Some(xs)
  {
    var t := Elements(xs) + "]";
    var tail := ElementsShape(xs);
    ReadAfterQuote(xs[0], tail);
    assert t[0] == '"' && ReadString(t[1..]) == Some((xs[0], tail));
    ReadElementsStep(t, xs[0], tail);
    if |xs| > 1 {
      ReadElementsOf(xs[1..]);
      assert ReadElements(tail[1..]) == Some(xs[1..]);
      assert ReadElements(t) == Some([xs[0]] + xs[1..]);
      assert [xs[0]] + xs[1..] == xs;
    } else {
      assert [xs[0]] == xs;
    }
  }

  /** Splits a rendered non-empty array body into its first literal and the rest. */
  lemma ElementsShape(xs: seq<string>) returns (tail: string)
    requires xs != []
    ensures Elements(xs) + "]" == "\"" + Escape(xs[0]) + "\"" + tail
    ensures |xs| == 1 ==> tail == "]"
    ensures |xs| > 1 ==> |tail| > 0 && tail[0] == ',' && tail != "]" && tail[1..] == Elements(xs[1..]) + "]"
  {
    if |xs| == 1 {
      tail := "]";
    } else {
      tail := "," + (Elements(xs[1..]) + "]");
      assert tail[1..] == Elements(xs[1..]) + "]";
    }
  }

  lemma ReadElementsStep(t: string, s: string, rest: string)
    requires |t| > 0 && t[0] == '"' && ReadString(t[1..]) == Some((s, rest))
    ensures ReadElements(t) ==
      if rest == "]" then Some([s])
      else if |rest| > 0 && rest[0] == ',' then
        match ReadElements(rest[1..])
        case None => None
        case Some(ss) => Some([s] + ss)
      else None
  {
  }

  lemma ReadAfterQuote(x: string, tail: string)
    ensures var t := "\"" + Escape(x) + "\"" + tail;
      t[0] == '"' && ReadString(t[1..]) == Some((x, tail))
  {
    var t := "\"" + Escape(x) + "\"" + tail;
    assert t[1..] == Escape(x) + "\"" + tail;
    ReadEscaped(x, tail);
  }

  /** What the table writes for a list of RPC endpoints, it reads back unchanged. */
  lemma ParseStringify(xs: seq<string>)
    ensures Parse(Stringify(xs)) == Some(xs)
  {
    if xs != [] {
      var t := Stringify(xs);
      assert t[1..] == Elements(xs) + "]";
      assert t[1] == '"';
      ReadElementsOf(xs);
    }
  }
}
