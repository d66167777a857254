/**
 * The conversation transcript of chat.py: an ordered list of turns, each a role
 * (`"user"` or `"assistant"`) and its text, and the two ways it is rendered as text:
 * the file body written by `/save` and the entries printed by `/history`.
 */
module Transcript {
  import opened PyStr

  datatype Role = User | Assistant

  /** One message, as the `{"role": ..., "content": ...}` dictionaries of `_messages`. */
  datatype Turn = Turn(role: Role, content: string)

  /** The role string stored in a message and sent to the API. */
  function WireRole(role: Role): string {
    match role
    case User => "user"
    case Assistant => "assistant"
  }

  /** `msg["role"].capitalize()`, the heading of a turn in `/save` and `/history`. */
  function Label(role: Role): string {
    match role
    case User => "User"
    case Assistant => "Assistant"
  }

  /** The heading is the capitalised role string. */
  lemma LabelIsCapitalizedRole(role: Role)
    ensures Label(role) == Capitalize(WireRole(role))
  {
    LowerOfLowerCase(WireRole(role)[1..]);
  }

  /**
   * What `/save` writes for one turn: `f"{role}:\n{content}\n\n"`. The block reads back
   * as the heading, a colon and line break, the content unchanged, and a blank line.
   */
  function SaveBlock(t: Turn): (r: string)
    ensures var n := |Label(t.role)|;
      && |r| == n + |t.content| + 4
      && r[..n] == Label(t.role) && r[n..n + 2] == ":\n"
      && r[n + 2..|r| - 2] == t.content && r[|r| - 2..] == "\n\n"
  {
    Label(t.role) + ":\n" + t.content + "\n\n"
  }

  /** The whole file body written by `/save`: the blocks of all turns, in transcript order. */
  function SaveText(ts: seq<Turn>): (r: string)
    ensures r == "" <==> ts == []
  {
    if ts == [] then "" else SaveBlock(ts[0]) + SaveText(ts[1..])
  }

  /** Saving a transcript that grew at its end yields the old text followed by the new blocks. */
  lemma {:induction false} SaveTextAppend(xs: seq<Turn>, ys: seq<Turn>)
    ensures SaveText(xs + ys) == SaveText(xs) + SaveText(ys)
    decreases |xs|
  {
    if xs == [] {
      assert xs + ys == ys;
    } else {
      assert (xs + ys)[0] == xs[0];
      assert (xs + ys)[1..] == xs[1..] + ys;
      SaveTextAppend(xs[1..], ys);
    }
  }

  /** Every turn's block appears in the saved text, after the blocks of the turns before it. */
  lemma SaveTextContainsBlock(ts: seq<Turn>, k: nat)
    requires k < |ts|
    ensures SaveText(ts) == SaveText(ts[..k]) + (SaveBlock(ts[k]) + SaveText(ts[k + 1..]))
  {
    var pre, tail := ts[..k], ts[k..];
    assert ts == pre + tail;
    SaveTextAppend(pre, tail);
    assert tail[0] == ts[k] && tail[1..] == ts[k + 1..];
  }

  /** One exchange saves as its user block followed by its assistant block. */
  lemma SaveTextOfExchange(question: string, answer: string)
    ensures SaveText([Turn(User, question), Turn(Assistant, answer)])
         == SaveBlock(Turn(User, question)) + SaveBlock(Turn(Assistant, answer))
  {
    var q, a := Turn(User, question), Turn(Assistant, answer);
    assert [q, a][1..] == [a] && [a][1..] == [];
    assert SaveText([a]) == SaveBlock(a) + "" == SaveBlock(a);
    assert SaveText([q, a]) == SaveBlock(q) + SaveText([a]);
  }

  /** A two-turn transcript, "hi" from the user and "hello" from the assistant, as saved. */
  lemma SaveTextExample()
    ensures SaveText([Turn(User, "hi"), Turn(Assistant, "hello")])
         == "User:\nhi\n\n" + "Assistant:\nhello\n\n"
  {
    SaveTextOfExchange("hi", "hello");
  }

  /**
   * What `/history` prints for one turn, `f"\n[bold]{role}:[/]\n{content}"` without its
   * console markup: a line break, then the turn's save block without its blank line.
   */
  function HistoryEntry(t: Turn): (r: string)
    ensures r == "\n" + SaveBlock(t)[..|SaveBlock(t)| - 2]
  {
    var block := SaveBlock(t);
    assert block[..|block| - 2] == Label(t.role) + ":\n" + t.content;
    "\n" + Label(t.role) + ":\n" + t.content
  }

  /** The entries `/history` prints, one per turn, in transcript order. */
  function HistoryEntries(ts: seq<Turn>): (r: seq<string>)
    ensures |r| == |ts|
    ensures forall k :: 0 <= k < |ts| ==> r[k] == HistoryEntry(ts[k])
  {
    if ts == [] then [] else [HistoryEntry(ts[0])] + HistoryEntries(ts[1..])
  }
}
