/** Splicing a replayed answer onto what the client already has (gateway/vllm_gateway.py, skip_already_sent and
    _chunk_text_as_sse). */
module Gateway {

  const PIECE := 64

  function Joined(pieces: seq<string>): string {
    if pieces == [] then "" else Joined(pieces[..|pieces| - 1]) + pieces[|pieces| - 1]
  }

  /** The two texts agree up to here and no further. */
  ghost predicate AgreeExactly(s: string, t: string, k: nat) {
    && k <= |s| && k <= |t| && s[..k] == t[..k]
    && (k < |s| && k < |t| ==> s[k] != t[k])
  }

  /** skip_already_sent: the part of the replay after the longest prefix it shares with what was sent, and whether all that
      was sent is that prefix. */
  method SkipAlreadySent(replay: string, already: string) returns (added: string, exact: bool)
    ensures |added| <= |replay| && AgreeExactly(replay, already, |replay| - |added|)
    ensures added == replay[|replay| - |added|..]
    ensures exact <==> already <= replay
    ensures exact <==> already + added == replay
  {
    if already == "" {
      return replay, true;
    }
    if already <= replay {
      assert replay == already + replay[|already|..];
      return replay[|already|..], true;
    }
    var limit := if |replay| < |already| then |replay| else |already|;
    var same := 0;
    while same < limit && replay[same] == already[same]
      invariant same <= limit && replay[..same] == already[..same]
    {
      same := same + 1;
    }
    SpliceIsExactIff(replay, already, same);
    added, exact := replay[same..], false;
  }

  lemma SpliceIsExactIff(s: string, t: string, k: nat)
    requires AgreeExactly(s, t, k)
    ensures t <= s <==> k == |t|
    ensures t + s[k..] == s <==> t <= s
  {
    if t <= s {
      assert t == s[..|t|];
      assert forall i :: 0 <= i < |t| ==> s[i] == t[i];
    }
    if t + s[k..] == s {
      assert t == (t + s[k..])[..|t|] == s[..|t|];
    }
  }

  lemma WholeUnlessSameStart(s: string, t: string, k: nat)
    requires AgreeExactly(s, t, k)
    ensures t + s[k..] == t + s <==> t == "" || s == "" || t[0] != s[0]
  {
    assert |t + s[k..]| == |t + s| - k;
    if k > 0 {
      assert s[..k][0] == t[..k][0];
    }
  }

  /** _chunk_text_as_sse, the text of the events: full pieces of 64 characters, then the rest, joining up to the text, and
      an empty piece that goes with the end marker. */
  method Chunk(text: string) returns (pieces: seq<string>)
    ensures Joined(pieces) == text
    ensures |pieces| > 0 && pieces[|pieces| - 1] == ""
    ensures forall i :: 0 <= i < |pieces| - 1 ==> 0 < |pieces[i]| <= PIECE && (i < |pieces| - 2 ==> |pieces[i]| == PIECE)
  {
    pieces := [];
    var i := 0;
    while i < |text|
      invariant Joined(pieces) == text[..if i < |text| then i else |text|]
      invariant forall j :: 0 <= j < |pieces| ==> 0 < |pieces[j]| <= PIECE
      invariant i < |text| ==> forall j :: 0 <= j < |pieces| ==> |pieces[j]| == PIECE
      invariant forall j :: 0 <= j < |pieces| - 1 ==> |pieces[j]| == PIECE
    {
      var end := if i + PIECE < |text| then i + PIECE else |text|;
      var piece := text[i..end];
      assert text[..i] + piece == text[..end];
      assert (pieces + [piece])[..|pieces|] == pieces;
      pieces := pieces + [piece];
      i := i + PIECE;
    }
    assert text[..|text|] == text;
    assert (pieces + [""])[..|pieces|] == pieces && text + "" == text;
    pieces := pieces + [""];
  }

  /** What the client ends up with after a replay: the replayed text exactly when the replay repeats what was sent. The
      request sent again has what was sent appended to its prompt, so an upstream may also return the continuation alone:
      that is forwarded whole exactly when it does not begin like the text already sent. */
  method ForwardReplay(replay: string, already: string) returns (pieces: seq<string>, exact: bool)
    ensures exact <==> already <= replay
    ensures exact <==> already + Joined(pieces) == replay
    ensures already + Joined(pieces) == already + replay <==> already == "" || replay == "" || already[0] != replay[0]
  {
    var added;
    added, exact := SkipAlreadySent(replay, already);
    pieces := Chunk(added);
    WholeUnlessSameStart(replay, already, |replay| - |added|);
  }
}
