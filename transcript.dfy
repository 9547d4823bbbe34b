/**
 * The read-only text area of a response panel, seen as the edits made to
 * it: an append of some text, or a reset to the empty text.
 */
module Transcript {
  datatype Edit = Append(text: string) | Reset

  /** The text the area holds after the edits, starting from the empty text. */
  function Replay(edits: seq<Edit>): string
    decreases |edits|
  {
    if edits == [] then ""
    else
      match edits[|edits| - 1]
      case Append(text) => Replay(edits[..|edits| - 1]) + text
      case Reset => ""
  }

  /** A clear forgets everything shown before it. */
  lemma {:induction false} ReplayAfterReset(before: seq<Edit>, after: seq<Edit>)
    ensures Replay(before + [Reset] + after) == Replay(after)
    decreases |after|
  {
    var all := before + [Reset] + after;
    if after == [] {
      assert all[..|all| - 1] == before;
    } else {
      var init := after[..|after| - 1];
      assert all[..|all| - 1] == before + [Reset] + init;
      assert after[..|after| - 1] == init;
      ReplayAfterReset(before, init);
    }
  }

  /** Without a clear, earlier text stays where it was: the area only grows at its end. */
  lemma {:induction false} ReplayAppendsOnly(edits: seq<Edit>, more: seq<Edit>)
    requires forall i :: 0 <= i < |more| ==> more[i].Append?
    ensures Replay(edits) <= Replay(edits + more)
    decreases |more|
  {
    if more != [] {
      var init := more[..|more| - 1];
      assert (edits + more)[..|edits + more| - 1] == edits + init;
      ReplayAppendsOnly(edits, init);
    } else {
      assert edits + more == edits;
    }
  }
}
