// The "<tag>@<port>" convention: how one inbound row names its listeners, and how
// the stats poller folds a listener's traffic back into its row.
module Tags {
  import Decimal

  function ExtraTag(tag: string, port: nat): string {
    tag + "@" + Decimal.Render(port)
  }

  // xray._listener_tags
  function ListenerTags(tag: string, extraPorts: seq<nat>): seq<string> {
    [tag] + seq(|extraPorts|, i requires 0 <= i < |extraPorts| => ExtraTag(tag, extraPorts[i]))
  }

  // Position of the last '@', or -1: where Python's rpartition splits.
  function LastAt(s: string): (k: int)
    ensures -1 <= k < |s|
    ensures 0 <= k ==> s[k] == '@'
    ensures forall j :: k < j < |s| ==> s[j] != '@'
  {
    if s == [] then -1
    else if s[|s| - 1] == '@' then |s| - 1
    else LastAt(s[..|s| - 1])
  }

  // tasks._base_tag
  function BaseTag(tag: string): string {
    var k := LastAt(tag);
    if 0 <= k && k + 1 < |tag| && Decimal.AllDigits(tag[k + 1..]) then tag[..k] else tag
  }

  lemma BaseTagOfExtra(tag: string, port: nat)
    ensures BaseTag(ExtraTag(tag, port)) == tag
  {
    var s := ExtraTag(tag, port);
    Decimal.RoundTrip(port);
    var d := Decimal.Render(port);
    assert s[|tag|] == '@';
    assert forall j :: |tag| < j < |s| ==> s[j] == d[j - |tag| - 1];
    assert LastAt(s) == |tag|;
    assert s[|tag| + 1..] == d;
    assert s[..|tag|] == tag;
  }

  lemma BaseTagOfPlain(tag: string)
    requires '@' !in tag
    ensures BaseTag(tag) == tag
  {
  }

  // Every listener of a row folds back to that row.
  lemma BaseTagOfListener(tag: string, extraPorts: seq<nat>, i: nat)
    requires '@' !in tag
    requires i < |ListenerTags(tag, extraPorts)|
    ensures BaseTag(ListenerTags(tag, extraPorts)[i]) == tag
  {
    hide BaseTag;
    if i == 0 {
      BaseTagOfPlain(tag);
    } else {
      BaseTagOfExtra(tag, extraPorts[i - 1]);
    }
  }

  // Distinct extra ports give distinct listeners.
  lemma ListenerTagsDistinct(tag: string, extraPorts: seq<nat>, i: nat, j: nat)
    requires forall a, b :: 0 <= a < b < |extraPorts| ==> extraPorts[a] != extraPorts[b]
    requires i < j < |ListenerTags(tag, extraPorts)|
    ensures ListenerTags(tag, extraPorts)[i] != ListenerTags(tag, extraPorts)[j]
  {
    var tj := ExtraTag(tag, extraPorts[j - 1]);
    if i == 0 {
      assert |tj| > |tag|;
    } else {
      var ti := ExtraTag(tag, extraPorts[i - 1]);
      if ti == tj {
        assert ti[|tag| + 1..] == Decimal.Render(extraPorts[i - 1]);
        assert tj[|tag| + 1..] == Decimal.Render(extraPorts[j - 1]);
        Decimal.Injective(extraPorts[i - 1], extraPorts[j - 1]);
      }
    }
  }
}
