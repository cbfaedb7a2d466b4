/** The two chat lanes and the live-transcript coalescing of App.tsx: the
    combat lane belongs to the current analysis, the partner lane is the
    general mentor chat, and spoken transcript fragments of the assistant are
    merged into one trailing message per utterance. */
module Chat {
  import opened Types

  datatype Tab = Combat | Partner

  datatype Lanes = Lanes(combat: seq<ChatMessage>, partner: seq<ChatMessage>) {
    function Lane(tab: Tab): seq<ChatMessage> {
      match tab
      case Combat => combat
      case Partner => partner
    }

    /** Appends to one lane; the other is left as it was. */
    function Append(tab: Tab, m: ChatMessage): (r: Lanes)
      ensures r.Lane(tab) == Lane(tab) + [m]
      ensures forall t :: t != tab ==> r.Lane(t) == Lane(t)
    {
      match tab
      case Combat => this.(combat := combat + [m])
      case Partner => this.(partner := partner + [m])
    }
  }

  const LivePrefix := "live-"

  /** A message that a transcript fragment may extend: the assistant's, with a
      live- id. */
  predicate IsLive(m: ChatMessage) {
    m.role == Neo && LivePrefix <= m.id
  }

  /** One outputTranscription fragment. `stamp` is the clock reading that
      names a newly started live message. */
  function MergeTranscript(msgs: seq<ChatMessage>, fragment: string, stamp: string): (r: seq<ChatMessage>)
    ensures |msgs| > 0 && IsLive(msgs[|msgs| - 1]) ==>
      |r| == |msgs| && r[..|r| - 1] == msgs[..|msgs| - 1]
      && r[|r| - 1].id == msgs[|msgs| - 1].id && r[|r| - 1].role == Neo
      && r[|r| - 1].content == msgs[|msgs| - 1].content + fragment
    ensures !(|msgs| > 0 && IsLive(msgs[|msgs| - 1])) ==>
      |r| == |msgs| + 1 && r[..|msgs|] == msgs
      && r[|msgs|] == ChatMessage(LivePrefix + stamp, Neo, fragment)
    ensures IsLive(r[|r| - 1])
  {
    if |msgs| > 0 && IsLive(msgs[|msgs| - 1]) then
      var last := msgs[|msgs| - 1];
      msgs[..|msgs| - 1] + [last.(content := last.content + fragment)]
    else
      msgs + [ChatMessage(LivePrefix + stamp, Neo, fragment)]
  }

  function Concat(fragments: seq<string>): string {
    if fragments == [] then "" else Concat(fragments[..|fragments| - 1]) + fragments[|fragments| - 1]
  }

  /** Fragments arriving one after another, each with its own clock reading. */
  function MergeAll(msgs: seq<ChatMessage>, fragments: seq<string>, stamps: seq<string>): seq<ChatMessage>
    requires |stamps| == |fragments|
  {
    if fragments == [] then msgs
    else
      var n := |fragments| - 1;
      MergeTranscript(MergeAll(msgs, fragments[..n], stamps[..n]), fragments[n], stamps[n])
  }

  /** The first fragment of an utterance: it extends a trailing live message,
      or starts a new one. */
  lemma FirstFragment(msgs: seq<ChatMessage>, fragment: string, stamp: string)
    ensures var r := MergeTranscript(msgs, fragment, stamp);
      var merges := |msgs| > 0 && IsLive(msgs[|msgs| - 1]);
      var k := |msgs| - (if merges then 1 else 0);
      |r| == k + 1 && r[..k] == msgs[..k] && IsLive(r[|r| - 1])
      && r[|r| - 1].content == (if merges then msgs[|msgs| - 1].content else "") + fragment
  {
    var r := MergeTranscript(msgs, fragment, stamp);
    if !(|msgs| > 0 && IsLive(msgs[|msgs| - 1])) {
      assert r[..|msgs|] == msgs;
      assert "" + fragment == fragment;
    }
  }

  /** A later fragment of the same utterance: the lane keeps its length and its
      first k messages, and the trailing content grows by the fragment. */
  lemma NextFragment(prev: seq<ChatMessage>, fragment: string, stamp: string, k: nat, base: string, sofar: string)
    requires |prev| == k + 1 && IsLive(prev[k]) && prev[k].content == base + sofar
    ensures var r := MergeTranscript(prev, fragment, stamp);
      |r| == k + 1 && r[..k] == prev[..k] && IsLive(r[k])
      && r[k].content == base + (sofar + fragment)
  {
    var r := MergeTranscript(prev, fragment, stamp);
    assert r[..k] == r[..|r| - 1];
    assert (base + sofar) + fragment == base + (sofar + fragment);
  }

  /** One utterance: however many fragments arrive with nothing else appended
      in between, the lane gains at most one message (none when it already ends
      in a live message), earlier messages are untouched, and the trailing
      message holds all fragments in arrival order. */
  lemma {:induction false} UtteranceCoalesces(msgs: seq<ChatMessage>, fragments: seq<string>, stamps: seq<string>)
    requires |stamps| == |fragments| && |fragments| > 0
    ensures var r := MergeAll(msgs, fragments, stamps);
      var merges := |msgs| > 0 && IsLive(msgs[|msgs| - 1]);
      var k := |msgs| - (if merges then 1 else 0);
      |r| == k + 1 && r[..k] == msgs[..k] && IsLive(r[|r| - 1])
      && r[|r| - 1].content == (if merges then msgs[|msgs| - 1].content else "") + Concat(fragments)
  {
    var n := |fragments| - 1;
    var merges := |msgs| > 0 && IsLive(msgs[|msgs| - 1]);
    var k := |msgs| - (if merges then 1 else 0);
    var base := if merges then msgs[|msgs| - 1].content else "";
    var front := fragments[..n];
    var prev := MergeAll(msgs, front, stamps[..n]);
    assert MergeAll(msgs, fragments, stamps) == MergeTranscript(prev, fragments[n], stamps[n]);
    assert Concat(fragments) == Concat(front) + fragments[n];
    if n == 0 {
      assert prev == msgs && Concat(front) == "";
      assert Concat(fragments) == fragments[0];
      FirstFragment(msgs, fragments[0], stamps[0]);
    } else {
      UtteranceCoalesces(msgs, front, stamps[..n]);
      NextFragment(prev, fragments[n], stamps[n], k, base, Concat(front));
    }
  }
}
