/**
 * CompoundException (src/Exception/CompoundException.php): one exception
 * that carries several, with a message listing each of them on its own line.
 */
module Exceptions {
  import opened Dto

  /** PHP_EOL on the platforms the SDK targets in production. */
  const Eol: string := "\n"

  /** One line of the message: `Class: message` and the end of line. */
  function Entry(e: Throwable): string {
    e.className + ": " + e.message + Eol
  }

  /** The message of a compound exception: the entries of the exceptions, in order. */
  function Message(es: seq<Throwable>): string {
    if es == [] then "" else Message(es[..|es| - 1]) + Entry(es[|es| - 1])
  }

  /** The message of a concatenation is the concatenation of the messages. */
  lemma {:induction false} MessageAppend(a: seq<Throwable>, b: seq<Throwable>)
    ensures Message(a + b) == Message(a) + Message(b)
  {
    if b == [] {
      assert a + b == a;
    } else {
      assert (a + b)[..|a + b| - 1] == a + b[..|b| - 1];
      MessageAppend(a, b[..|b| - 1]);
    }
  }

  predicate EndsWith(s: string, suffix: string) {
    |suffix| <= |s| && s[|s| - |suffix|..] == suffix
  }

  /** No exceptions, no message; otherwise it starts with the first entry and ends with an end of line. */
  lemma MessageShape(es: seq<Throwable>)
    ensures es == [] <==> Message(es) == ""
    ensures es != [] ==> Entry(es[0]) <= Message(es)
    ensures es != [] ==> EndsWith(Message(es), Eol)
  {
    if es != [] {
      MessageAppend([es[0]], es[1..]);
      assert [es[0]] + es[1..] == es;
      assert Message([es[0]]) == Entry(es[0]);
    }
  }

  /** createMessage: the loop that appends one entry per exception. */
  method CreateMessage(exceptions: seq<Throwable>) returns (message: string)
    ensures message == Message(exceptions)
  {
    message := "";
    var i := 0;
    while i < |exceptions|
      invariant 0 <= i <= |exceptions|
      invariant message == Message(exceptions[..i])
    {
      assert exceptions[..i + 1][..i] == exceptions[..i];
      message := message + exceptions[i].className + ": " + exceptions[i].message + Eol;
      i := i + 1;
    }
    assert exceptions[..i] == exceptions;
  }

  class CompoundException {
    const exceptions: seq<Throwable>
    /** The message handed to Exception's constructor. */
    const message: string

    constructor (exceptions: seq<Throwable>)
      ensures this.exceptions == exceptions
      ensures message == Message(exceptions)
    {
      var m := CreateMessage(exceptions);
      this.exceptions := exceptions;
      message := m;
    }

    /** getExceptions: the constructor's arguments, in order. */
    function GetExceptions(): (r: seq<Throwable>)
      ensures r == exceptions
    {
      exceptions
    }
  }
}
