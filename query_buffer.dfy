/** The query buffer: the text of the query being edited, together with the
    height of the pane that displays it, kept up to date one character at a
    time instead of being recomputed on every redraw. */
module QueryBuffer {
  import opened Wrappers

  /** The query the session starts with, `SELECT ?s ?p ?o WHERE { ?s ?p ?o }`. */
  const DefaultText: string := "SELECT ?s ?p ?o " + "WHERE { ?s ?p ?o }"

  /** Height of a pane showing one line of text: top border, the line, bottom border. */
  const BaseHeight: nat := 3

  /** Number of line breaks in `s`. */
  function CountNewlines(s: string): nat
  {
    if s == [] then 0 else (if s[0] == '\n' then 1 else 0) + CountNewlines(s[1..])
  }

  /** Appending one character adds one line break exactly when it is one. */
  lemma {:induction false} CountNewlinesAppend(s: string, c: char)
    ensures CountNewlines(s + [c]) == CountNewlines(s) + (if c == '\n' then 1 else 0)
  {
    if s == [] {
      assert s + [c] == [c];
    } else {
      assert (s + [c])[1..] == s[1..] + [c];
      CountNewlinesAppend(s[1..], c);
    }
  }

  /** The count agrees with an independent definition: the multiplicity of
      the line-break character in the text. */
  lemma {:induction false} CountNewlinesIsMultiplicity(s: string)
    ensures CountNewlines(s) == multiset(s)['\n']
  {
    if s != [] {
      assert s == [s[0]] + s[1..];
      assert multiset(s) == multiset([s[0]]) + multiset(s[1..]);
      CountNewlinesIsMultiplicity(s[1..]);
    }
  }

  /** A text has no line break exactly when its count is zero. */
  lemma CountNewlinesZero(s: string)
    ensures CountNewlines(s) == 0 <==> '\n' !in s
  {
  }

  /** The default query is a single line. */
  lemma DefaultTextIsOneLine()
    ensures CountNewlines(DefaultText) == 0
  {
    assert forall i :: 0 <= i < |DefaultText| ==> DefaultText[i] != '\n';
    CountNewlinesZero(DefaultText);
  }

  /** The abstract value of a query buffer. */
  datatype Buffer = Buffer(text: string, height: nat)

  /** The buffer's invariant: its height is the base height plus one line per line break. */
  predicate BufferValid(b: Buffer)
  {
    b.height == BaseHeight + CountNewlines(b.text)
  }

  /** The buffer the session starts with. */
  function InitialBuffer(): (b: Buffer)
    ensures BufferValid(b) && b.text == DefaultText && b.height == BaseHeight
  {
    DefaultTextIsOneLine();
    Buffer(DefaultText, BaseHeight)
  }

  /** Appending `ch`: the height follows only when `ch` is a line break. */
  function BufferPush(b: Buffer, ch: char): (r: Buffer)
    ensures BufferValid(b) ==> BufferValid(r)
  {
    CountNewlinesAppend(b.text, ch);
    Buffer(b.text + [ch], if ch == '\n' then b.height + 1 else b.height)
  }

  /** Removing the last character, if any; the height drops only when the
      removed character is a line break, and then it is at least
      `BaseHeight + 1`, so the decrement cannot go below zero. */
  function BufferPop(b: Buffer): (r: (Option<char>, Buffer))
    requires BufferValid(b)
    ensures BufferValid(r.1)
  {
    if b.text == [] then (None, b)
    else
      var n := |b.text| - 1;
      var ch := b.text[n];
      assert b.text == b.text[..n] + [ch];
      CountNewlinesAppend(b.text[..n], ch);
      (Some(ch), Buffer(b.text[..n], if ch == '\n' then b.height - 1 else b.height))
  }

  /** The height is never below the base height. */
  lemma HeightAtLeastBase(b: Buffer)
    requires BufferValid(b)
    ensures b.height >= BaseHeight
  {
  }

  /** Pushing changes the text to the old text plus that one character,
      and the height by exactly one iff the character is a line break. */
  lemma PushEffect(b: Buffer, ch: char)
    requires BufferValid(b)
    ensures BufferPush(b, ch).text == b.text + [ch]
    ensures BufferPush(b, ch).height == b.height + 1 <==> ch == '\n'
    ensures BufferPush(b, ch).height == b.height <==> ch != '\n'
  {
  }

  /** Popping a non-empty buffer returns its last character and removes
      exactly that character; popping an empty one returns nothing and
      changes nothing. */
  lemma PopEffect(b: Buffer)
    requires BufferValid(b)
    ensures b.text == [] ==> BufferPop(b) == (None, b)
    ensures b.text != [] ==>
      && BufferPop(b).0 == Some(b.text[|b.text| - 1])
      && BufferPop(b).1.text + [b.text[|b.text| - 1]] == b.text
    ensures BufferPop(b).1.height == b.height - 1 <==> BufferPop(b).0 == Some('\n')
    ensures BufferPop(b).0 == Some('\n') ==> b.height >= BaseHeight + 1
  {
  }

  /** Pop undoes push. */
  lemma PopAfterPush(b: Buffer, ch: char)
    requires BufferValid(b)
    ensures BufferPop(BufferPush(b, ch)) == (Some(ch), b)
  {
  }

  /** Push undoes pop on a non-empty buffer. */
  lemma PushAfterPop(b: Buffer)
    requires BufferValid(b) && b.text != []
    ensures BufferPush(BufferPop(b).1, BufferPop(b).0.value) == b
  {
  }

  /** The mutable query buffer of a running session. */
  class Query {
    var text: string
    var height: nat

    /** The abstract value of this buffer. */
    ghost function Value(): Buffer
      reads this
    {
      Buffer(text, height)
    }

    ghost predicate Valid()
      reads this
    {
      BufferValid(Value())
    }

    /** A buffer holding the default query, at the base height. */
    constructor ()
      ensures Valid()
      ensures text == DefaultText && height == BaseHeight
      ensures Value() == InitialBuffer()
    {
      var b := InitialBuffer();
      text := b.text;
      height := b.height;
    }

    /** Appends `ch`, growing the height only for a line break. */
    method Push(ch: char)
      requires Valid()
      modifies this
      ensures Valid()
      ensures text == old(text) + [ch]
      ensures height == old(height) + (if ch == '\n' then 1 else 0)
      ensures Value() == BufferPush(old(Value()), ch)
    {
      CountNewlinesAppend(text, ch);
      text := text + [ch];
      if ch == '\n' {
        height := height + 1;
      }
    }

    /** Removes and returns the last character, shrinking the height only
        when it is a line break; on an empty buffer returns `None`. */
    method Pop() returns (r: Option<char>)
      requires Valid()
      modifies this
      ensures Valid()
      ensures old(text) == [] ==> r == None && text == old(text) && height == old(height)
      ensures old(text) != [] ==> r == Some(old(text)[|old(text)| - 1]) && text + [r.value] == old(text)
      ensures height == old(height) - (if r == Some('\n') then 1 else 0)
      ensures (r, Value()) == BufferPop(old(Value()))
    {
      if text == [] {
        r := None;
      } else {
        var n := |text| - 1;
        var ch := text[n];
        assert text == text[..n] + [ch];
        CountNewlinesAppend(text[..n], ch);
        text := text[..n];
        r := Some(ch);
      }
      if r == Some('\n') {
        height := height - 1;
      }
    }
  }
}
