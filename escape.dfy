/** The field escaper of osc2sql.c: every double quote becomes the entity `&quot;`,
    every other character is kept. Nothing else is escaped. */
module Escaping {
  import opened Seqs

  /** The size of the static buffer the escaped text is written into, terminator included. */
  const BufferSize: nat := 5000

  const QuoteEntity: string := "&quot;"

  function EscapeChar(c: char): string
  {
    if c == '"' then QuoteEntity else [c]
  }

  function QuoteCount(s: string): nat
  {
    if s == [] then 0 else QuoteCount(s[..|s| - 1]) + (if s[|s| - 1] == '"' then 1 else 0)
  }

  /** The escaped form of `s`: six characters per quote, one per other character, and
      no double quote left to end the SQL string it is placed in. */
  function Escaped(s: string): (r: string)
    ensures |r| == |s| + 5 * QuoteCount(s)
  {
    if s == [] then [] else Escaped(s[..|s| - 1]) + EscapeChar(s[|s| - 1])
  }

  /** No double quote is left in an escaped field to end the SQL string it is placed in. */
  lemma {:induction false} EscapedNoQuote(s: string)
    ensures '"' !in Escaped(s)
  {
    if s != [] {
      var init, c := s[..|s| - 1], s[|s| - 1];
      EscapedNoQuote(init);
      assert Escaped(s) == Escaped(init) + EscapeChar(c);
      if c == '"' {
        assert EscapeChar(c) == ['&', 'q', 'u', 'o', 't', ';'];
      }
    }
  }

  /** The number of bytes the UTF-8 encoding of `c` takes. A character stands here for the
      bytes libxml2 hands out for it; a `"` is one byte, and no byte of a longer encoding
      is a `"`, so escaping character by character and byte by byte agree. */
  function Utf8Width(c: char): (w: nat)
    ensures 1 <= w <= 4
    ensures w == 1 <==> c as int < 0x80
  {
    if c as int < 0x80 then 1 else if c as int < 0x800 then 2 else if c as int < 0x10000 then 3 else 4
  }

  /** The length in bytes of the UTF-8 encoding of `s`, which is what `strlen` counts. */
  function Utf8Length(s: string): (n: nat)
    ensures |s| <= n <= 4 * |s|
  {
    if s == [] then 0 else Utf8Length(s[..|s| - 1]) + Utf8Width(s[|s| - 1])
  }

  /** Bytes and characters agree exactly on ASCII text. */
  lemma {:induction false} Utf8LengthAscii(s: string)
    ensures Utf8Length(s) == |s| <==> forall j | 0 <= j < |s| :: s[j] as int < 0x80
  {
    if s != [] {
      var init := s[..|s| - 1];
      Utf8LengthAscii(init);
      assert forall j | 0 <= j < |init| :: init[j] == s[j];
    }
  }

  lemma {:induction false} Utf8LengthAppend(a: string, b: string)
    ensures Utf8Length(a + b) == Utf8Length(a) + Utf8Length(b)
    decreases |b|
  {
    if b == [] {
      AppendEmpty(a);
    } else {
      InitOfAppend(a, b);
      Utf8LengthAppend(a, b[..|b| - 1]);
    }
  }

  /** Escaping adds five bytes per quote to the UTF-8 encoding, as it adds five
      characters: the entity is ASCII. */
  lemma {:induction false} EscapedBytes(s: string)
    ensures Utf8Length(Escaped(s)) == Utf8Length(s) + 5 * QuoteCount(s)
  {
    if s != [] {
      var init, c := s[..|s| - 1], s[|s| - 1];
      EscapedBytes(init);
      Utf8LengthAppend(Escaped(init), EscapeChar(c));
      EscapeCharBytes(c);
    }
  }

  lemma EscapeCharBytes(c: char)
    ensures Utf8Length(EscapeChar(c)) == Utf8Length([c]) + (if c == '"' then 5 else 0)
  {
    assert [c][..0] == [];
    if c == '"' {
      Utf8LengthAscii(QuoteEntity);
    }
  }

  /** The escaped bytes, with the terminating zero the cleared buffer leaves after them,
      fit the static buffer. Since escaping never shortens a text, the copy `strcpy`
      makes of the unescaped field into the second buffer then fits as well. */
  predicate Escapable(s: string)
  {
    Utf8Length(Escaped(s)) < BufferSize
  }

  /** Escaping works character by character, so it distributes over concatenation. */
  lemma {:induction false} EscapedAppend(a: string, b: string)
    ensures Escaped(a + b) == Escaped(a) + Escaped(b)
    decreases |b|
  {
    if b == [] {
      AppendEmpty(a);
      AppendEmpty(Escaped(a));
    } else {
      var b', c := b[..|b| - 1], b[|b| - 1];
      InitOfAppend(a, b);
      EscapedAppend(a, b');
      Assoc(Escaped(a), Escaped(b'), EscapeChar(c));
    }
  }

  /** Text without a double quote is its own escaped form, and only such text is. */
  lemma {:induction false} EscapedUnchanged(s: string)
    ensures Escaped(s) == s <==> '"' !in s
  {
    EscapedNoQuote(s);
    if s != [] && '"' !in s {
      var init := s[..|s| - 1];
      PrefixIn(s, |s| - 1);
      EscapedUnchanged(init);
      InitLast(s);
    }
  }

  /** Escaping an escaped field again changes nothing: the `&` of an entity is never
      re-escaped, so applying the escaper twice cannot be told from applying it once. */
  lemma EscapedIdempotent(s: string)
    ensures Escaped(Escaped(s)) == Escaped(s)
  {
    EscapedNoQuote(s);
    EscapedUnchanged(Escaped(s));
  }

  /** `escape`: copies `msg` into the buffer character by character, writing the six
      characters of the entity in place of each quote. */
  method Escape(msg: string) returns (buf: string)
    requires Escapable(msg)
    ensures buf == Escaped(msg)
  {
    buf := [];
    var i := 0;
    PrefixEnds(msg);
    while i < |msg|
      invariant 0 <= i <= |msg|
      invariant buf == Escaped(msg[..i])
    {
      PrefixStep(msg, i);
      if msg[i] == '"' {
        buf := buf + ['&', 'q', 'u', 'o', 't', ';'];
      } else {
        buf := buf + [msg[i]];
      }
      i := i + 1;
    }
    PrefixEnds(msg);
  }
}
