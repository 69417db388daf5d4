/** Quoted tokens in SQLite statements. A token runs from its opening quote
    to the first quote character that is not doubled, and a doubled quote
    inside it stands for one quote character. A single-quoted token is always
    a string. A double-quoted token is first looked up as an identifier: it
    is a column when it names a column in scope, matched without regard to
    ASCII case, and a string only otherwise. */
module SqlLiteral {
  import opened Wire

  const SingleQuote: char := '\''
  const DoubleQuote: char := '"'

  /** The text between the quotes of a token holding `s`: every `quote` doubled. */
  function Escape(quote: char, s: string): string {
    if s == [] then [] else (if s[0] == quote then [quote, quote] else [s[0]]) + Escape(quote, s[1..])
  }

  /** Text without the quote character is its own escaped form. */
  lemma {:induction false} EscapeUnquoted(quote: char, s: string)
    requires quote !in s
    ensures Escape(quote, s) == s
    decreases |s|
  {
    if s != [] {
      assert s[0] != quote;
      assert quote !in s[1..] by { assert forall i :: 0 <= i < |s[1..]| ==> s[1..][i] == s[i + 1]; }
      EscapeUnquoted(quote, s[1..]);
      assert [s[0]] + s[1..] == s;
    }
  }

  /** The token for `s` between `quote`s, quotes included. */
  function Quoted(quote: char, s: string): string {
    [quote] + Escape(quote, s) + [quote]
  }

  /** Reads a token's text from `s`, which starts just after the opening
      quote: gives the value and what follows the closing quote, or None when
      the token is never closed. */
  function ReadBody(quote: char, s: string): Option<(string, string)>
    decreases |s|
  {
    if s == [] then None
    else if s[0] == quote then
      if |s| > 1 && s[1] == quote then
        match ReadBody(quote, s[2..])
        case None => None
        case Some(p) => Some(([quote] + p.0, p.1))
      else Some(([], s[1..]))
    else
      match ReadBody(quote, s[1..])
      case None => None
      case Some(p) => Some(([s[0]] + p.0, p.1))
  }

  /** Reads one `quote`d token at the start of `s`. */
  function ReadLiteral(quote: char, s: string): Option<(string, string)> {
    if |s| > 0 && s[0] == quote then ReadBody(quote, s[1..]) else None
  }

  /** `prefix` removed from the front of `s`, if `s` starts with it. */
  function StripPrefix(prefix: string, s: string): (r: Option<string>)
    ensures r.Some? <==> prefix <= s
    ensures r.Some? ==> s == prefix + r.value
  {
    if prefix <= s then Some(s[|prefix|..]) else None
  }

  /** Removing a prefix from text that starts with it leaves the rest. */
  lemma StripOwnPrefix(prefix: string, rest: string)
    ensures StripPrefix(prefix, prefix + rest) == Some(rest)
  {
    assert (prefix + rest)[|prefix|..] == rest;
  }

  /** The escaped text, closed by a quote, reads back as the original value. */
  lemma {:induction false} ReadEscaped(quote: char, v: string, rest: string)
    requires rest == [] || rest[0] != quote
    ensures ReadBody(quote, Escape(quote, v) + [quote] + rest) == Some((v, rest))
    decreases |v|
  {
    if v == [] {
      assert Escape(quote, v) + [quote] + rest == [quote] + rest;
    } else {
      ReadEscaped(quote, v[1..], rest);
      ReadEscapedStep(quote, v, rest);
    }
  }

  /** From the read-back of the escaped tail to that of the whole value. */
  lemma ReadEscapedStep(quote: char, v: string, rest: string)
    requires v != []
    requires ReadBody(quote, Escape(quote, v[1..]) + [quote] + rest) == Some((v[1..], rest))
    ensures ReadBody(quote, Escape(quote, v) + [quote] + rest) == Some((v, rest))
  {
    EscapeHead(quote, v);
    ReadAfterHead(quote, Escape(quote, v[1..]) + [quote] + rest, v, rest, Escape(quote, v) + [quote] + rest);
  }

  /** Escaping a non-empty value escapes its first character, then the rest. */
  lemma EscapeHead(quote: char, v: string)
    requires v != []
    ensures Escape(quote, v) == (if v[0] == quote then [quote, quote] else [v[0]]) + Escape(quote, v[1..])
  {
  }

  /** One step of ReadBody over the escaped form of the first character of `v`. */
  lemma ReadAfterHead(quote: char, tail: string, v: string, rest: string, w: string)
    requires v != []
    requires ReadBody(quote, tail) == Some((v[1..], rest))
    requires w == (if v[0] == quote then [quote, quote] else [v[0]]) + tail
    ensures ReadBody(quote, w) == Some((v, rest))
  {
    if v[0] == quote {
      assert w[0] == quote && w[1] == quote && w[2..] == tail;
    } else {
      assert w[0] == v[0] && w[1..] == tail;
    }
    assert [v[0]] + v[1..] == v;
  }

  /** A quoted token followed by text that does not start with its quote reads back exactly. */
  lemma ReadQuoted(quote: char, v: string, rest: string)
    requires rest == [] || rest[0] != quote
    ensures ReadLiteral(quote, Quoted(quote, v) + rest) == Some((v, rest))
  {
    ReadEscaped(quote, v, rest);
    assert Quoted(quote, v) + rest == [quote] + (Escape(quote, v) + [quote] + rest);
  }

  /* ---------------------------------------------------------------------- */
  /* Operands                                                                */
  /* ---------------------------------------------------------------------- */

  /** What a quoted token stands for once SQLite has resolved it. */
  datatype Operand = StringValue(value: string) | ColumnRef(name: string)

  function LowerChar(c: char): char {
    if 'A' <= c <= 'Z' then (c as int + 32) as char else c
  }

  function AsciiLower(s: string): string {
    seq(|s|, i requires 0 <= i < |s| => LowerChar(s[i]))
  }

  /** Whether `v` names one of `columns`, which are given in lower case. */
  predicate NamesColumn(v: string, columns: set<string>) {
    AsciiLower(v) in columns
  }

  /** Reads one operand at the start of `s` where `columns` are in scope: the
      operand and what follows it, or None when `s` does not start with a
      closed quoted token. */
  function ReadOperand(s: string, columns: set<string>): Option<(Operand, string)> {
    if |s| > 0 && s[0] == SingleQuote then
      match ReadBody(SingleQuote, s[1..])
      case None => None
      case Some((v, rest)) => Some((StringValue(v), rest))
    else if |s| > 0 && s[0] == DoubleQuote then
      match ReadBody(DoubleQuote, s[1..])
      case None => None
      case Some((v, rest)) => Some((if NamesColumn(v, columns) then ColumnRef(v) else StringValue(v), rest))
    else None
  }

  /** The SQL string literal for `s`: single quotes, inner single quotes doubled. */
  function StringLiteral(s: string): string {
    Quoted(SingleQuote, s)
  }

  /** A string literal reads back as a string holding exactly its value,
      whatever it contains and whatever columns are in scope. */
  lemma ReadStringLiteral(v: string, rest: string, columns: set<string>)
    requires rest == [] || rest[0] != SingleQuote
    ensures ReadOperand(StringLiteral(v) + rest, columns) == Some((StringValue(v), rest))
  {
    ReadQuoted(SingleQuote, v, rest);
  }

  /** A double-quoted token without inner quotes: a column when it names one
      in scope, the string otherwise. */
  lemma ReadDoubleQuoted(v: string, rest: string, columns: set<string>)
    requires DoubleQuote !in v
    requires rest == [] || rest[0] != DoubleQuote
    ensures ReadOperand([DoubleQuote] + v + [DoubleQuote] + rest, columns)
            == Some((if NamesColumn(v, columns) then ColumnRef(v) else StringValue(v), rest))
  {
    ReadQuoted(DoubleQuote, v, rest);
    EscapeUnquoted(DoubleQuote, v);
    assert Quoted(DoubleQuote, v) == [DoubleQuote] + v + [DoubleQuote];
  }
}
