/** The process's standard streams as the shell sees them through its rich
    `Console`: what `sys.stdout` currently points at, every stream written so
    far, and the events standard input will deliver. */
module Terminal {

  /** One read from standard input: a line, end of input (Ctrl+D), or Ctrl+C. */
  datatype InputEvent = Line(text: string) | EndOfInput | Interrupt

  class Console {
    /** `sinks[0]` is the real terminal; every later entry is a `StringIO`
        buffer that an output capture installed. */
    var sinks: seq<string>
    /** The index of the stream `sys.stdout` refers to now. */
    var current: nat
    /** Events standard input has yet to deliver; once empty, input is at its end. */
    var input: seq<InputEvent>

    ghost predicate Valid()
      reads this
    {
      |sinks| >= 1 && current < |sinks|
    }

    /** What the terminal itself (not a buffer) has shown. */
    function Screen(): string
      reads this
      requires Valid()
    {
      sinks[0]
    }

    constructor (events: seq<InputEvent>)
      ensures Valid() && sinks == [""] && current == 0 && input == events
    {
      sinks, current, input := [""], 0, events;
    }

    /** `console.print(s, end="")`: the text goes to wherever `sys.stdout` points. */
    method Write(s: string)
      requires Valid()
      modifies this
      ensures Valid() && current == old(current) && input == old(input)
      ensures sinks == old(sinks)[current := old(sinks)[current] + s]
    {
      sinks := sinks[current := sinks[current] + s];
    }

    /** `console.print(s)`: the text and a newline. */
    method Print(s: string)
      requires Valid()
      modifies this
      ensures Valid() && current == old(current) && input == old(input)
      ensures sinks == old(sinks)[current := old(sinks)[current] + (s + "\n")]
    {
      Write(s + "\n");
    }

    /** `input()`: the next event; an exhausted stream keeps reporting end of input. */
    method Read() returns (e: InputEvent)
      requires Valid()
      modifies this
      ensures Valid() && sinks == old(sinks) && current == old(current)
      ensures old(input) == [] ==> e == EndOfInput && input == []
      ensures old(input) != [] ==> e == old(input)[0] && input == old(input)[1..]
    {
      if input == [] {
        e := EndOfInput;
      } else {
        e, input := input[0], input[1..];
      }
    }

    /** `sys.stdout = buffer = StringIO()`: a fresh empty buffer becomes the sink;
        `saved` is the previous value of `sys.stdout` and `buf` the new buffer. */
    method Redirect() returns (saved: nat, buf: nat)
      requires Valid()
      modifies this
      ensures Valid() && input == old(input)
      ensures saved == old(current) && buf == |old(sinks)| && current == buf
      ensures sinks == old(sinks) + [""]
    {
      saved, buf := current, |sinks|;
      sinks, current := sinks + [""], |sinks|;
    }

    /** `sys.stdout = old_stdout`. */
    method Restore(saved: nat)
      requires Valid() && saved < |sinks|
      modifies this
      ensures Valid() && sinks == old(sinks) && input == old(input) && current == saved
    {
      current := saved;
    }
  }

  /** Printing nothing leaves every stream as it was. */
  lemma AppendNothing(sinks: seq<string>, c: nat)
    requires c < |sinks|
    ensures sinks[c := sinks[c] + ""] == sinks
  {
    assert sinks[c] + "" == sinks[c];
  }

  /** A stream set twice holds what it was set to last. */
  lemma Overwritten(sinks: seq<string>, c: nat, x: string, y: string)
    requires c < |sinks|
    ensures sinks[c := x][c := y] == sinks[c := y]
  {
  }

  /** Two writes to the same stream are one write of both texts. */
  lemma Appended(sinks: seq<string>, c: nat, d: string, a: string, b: string)
    requires c < |sinks|
    ensures sinks[c := d + a][c := d + a + b] == sinks[c := d + (a + b)]
  {
    assert d + a + b == d + (a + b);
  }
}
