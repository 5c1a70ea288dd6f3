/** The message log of the terminal backend's window (backend/src/tcod.rs):
    a list of lines, newest first, that keeps at most as many lines as the
    window is tall. The console drawing itself is not modelled. */
module MessageWindow {
  import opened Common
  import Bounds

  /** `2^64`: `as u64` and `as usize` of a negative `i32` wrap modulo this. */
  const TWO_TO_64: nat := 0x1_0000_0000_0000_0000

  /** `v as u64` (and `v as usize` on a 64-bit target) for an `i32` value. */
  function AsU64(v: int): (r: nat)
    requires v >= -0x8000_0000
    ensures v >= 0 ==> r == v
    ensures v < 0 ==> r == TWO_TO_64 + v
  {
    if v >= 0 then v else TWO_TO_64 + v
  }

  /** `n` empty lines. */
  function Blank(n: nat): (r: seq<string>)
    ensures |r| == n && forall i :: 0 <= i < n ==> r[i] == ""
  {
    seq(n, _ => "")
  }

  class TcodWindow {
    const bounds: Bounds.Bounds
    /** The buffered lines, newest first. */
    var messages: seq<string>
    /** The number of lines kept. */
    var maxMessages: nat

    /** The window keeps exactly one line per row. */
    predicate Full()
      reads this
    {
      |messages| == maxMessages
    }

    /** `TcodWindow::new` (the message part): the window is
        `max.y - min.y + 1` rows tall; the log starts as one empty line, gets
        that many more in front, and is cut to that many. A window with no
        rows keeps none; one with a negative height, whose conversion to
        `usize` wraps to a huge count, keeps the single initial line. */
    constructor (bounds: Bounds.Bounds)
      requires bounds.max.y - bounds.min.y + 1 >= -0x8000_0000
      ensures this.bounds == bounds
      ensures var height := bounds.max.y - bounds.min.y + 1;
        && maxMessages == AsU64(height)
        && (height >= 0 ==> messages == Blank(height))
        && (height < 0 ==> messages == [""])
      ensures bounds.max.y - bounds.min.y + 1 >= 0 ==> Full()
    {
      var height := bounds.max.y - bounds.min.y + 1;
      var lines := [""];
      var i := 0;
      while i < height
        invariant 0 <= i <= Max(height, 0)
        invariant lines == Blank(i + 1)
      {
        lines := [""] + lines;
        i := i + 1;
      }
      this.bounds := bounds;
      this.messages := Truncate(lines, AsU64(height));
      this.maxMessages := AsU64(height);
    }

    /** `buffer_message`: `text` becomes the first line, the others move
        down one, and the log is cut to `maxMessages` lines. */
    method BufferMessage(text: string)
      modifies this
      ensures messages == Truncate([text] + old(messages), maxMessages)
      ensures maxMessages == old(maxMessages)
      ensures old(Full()) ==> Full()
    {
      messages := Truncate([text] + messages, maxMessages);
    }

    /** `flush_message_buffer`: `maxMessages` empty lines are put in front,
        and the log is cut to `maxMessages` lines, so every line is empty. */
    method FlushMessageBuffer()
      modifies this
      ensures messages == Blank(maxMessages)
      ensures maxMessages == old(maxMessages)
      ensures Full()
    {
      ghost var original := messages;
      var i := 0;
      while i < maxMessages
        invariant maxMessages == old(maxMessages)
        invariant 0 <= i <= maxMessages
        invariant messages == Blank(i) + original
      {
        messages := [""] + messages;
        i := i + 1;
      }
      messages := Truncate(messages, maxMessages);
      assert messages == Blank(maxMessages);
    }

    /** `get_messages`: the lines, newest first. */
    function GetMessages(): seq<string>
      reads this
    {
      messages
    }
  }

  /** What `buffer_message` does to the log: the new line is first (when any
      line is kept), the older lines follow in order, the oldest line is
      dropped once the log is full, and the length is `min(old + 1, max)`. */
  lemma BufferedLog(log: seq<string>, text: string, maxMessages: nat)
    ensures var r := Truncate([text] + log, maxMessages);
      && |r| == Min(|log| + 1, maxMessages)
      && (maxMessages > 0 ==> r[0] == text)
      && (forall i :: 1 <= i < |r| ==> r[i] == log[i - 1])
  {
    var r := Truncate([text] + log, maxMessages);
    forall i | 1 <= i < |r|
      ensures r[i] == log[i - 1]
    {
      assert r[i] == ([text] + log)[i];
    }
  }

  /** The log after buffering each of `texts` in turn, with at most
      `maxMessages` lines kept. */
  function BufferAll(log: seq<string>, texts: seq<string>, maxMessages: nat): seq<string>
    decreases |texts|
  {
    if texts == [] then log
    else Truncate([texts[|texts| - 1]] + BufferAll(log, texts[..|texts| - 1], maxMessages), maxMessages)
  }

  function Reverse(s: seq<string>): (r: seq<string>)
    ensures |r| == |s|
  {
    if s == [] then [] else [s[|s| - 1]] + Reverse(s[..|s| - 1])
  }

  /** After buffering `texts` into a log of `maxMessages` lines, the first
      `|texts|` lines (at most `maxMessages`) are the texts, newest first,
      and the log keeps its length. */
  lemma {:induction false} BufferAllPrefix(log: seq<string>, texts: seq<string>, maxMessages: nat)
    requires |log| == maxMessages && |texts| <= maxMessages
    ensures |BufferAll(log, texts, maxMessages)| == maxMessages
    ensures BufferAll(log, texts, maxMessages)[..|texts|] == Reverse(texts)
    decreases |texts|
  {
    if texts != [] {
      var init := texts[..|texts| - 1];
      BufferAllPrefix(log, init, maxMessages);
      var mid := BufferAll(log, init, maxMessages);
      var r := Truncate([texts[|texts| - 1]] + mid, maxMessages);
      assert r[..|texts|] == [texts[|texts| - 1]] + mid[..|init|];
    }
  }

  /** Buffering as many lines as a full log holds leaves exactly those
      lines, newest first: nothing older survives. */
  lemma BufferedLogForgets(log: seq<string>, texts: seq<string>)
    requires |log| == |texts|
    ensures BufferAll(log, texts, |log|) == Reverse(texts)
  {
    BufferAllPrefix(log, texts, |log|);
    assert BufferAll(log, texts, |log|) == BufferAll(log, texts, |log|)[..|texts|];
  }
}
