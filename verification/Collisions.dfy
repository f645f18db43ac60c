// Concrete requests, all accepted, after which ports, routes or firewall rules collide.
module Collisions {
  import opened Models
  import opened Protocols
  import opened Registry
  import opened Routing
  import Firewall
  import Nginx

  const OPEN := Env({}, true)

  function Ask(core: CoreKind, protocol: string, port: nat, network: string, paths: map<string, string>,
               extras: seq<int>)
    : CreateRequest
  {
    CreateRequest("a", true, core, protocol, "", Some(port), network, "none", map[], paths, extras)
  }

  // VLESS over WebSocket on :80, with 20001 as an extra port.
  const LOOPBACK_PORT := Ask(Xray, "vless", 80, "ws", map["ws" := "/x"], [20001])

  // Hysteria2 with a WebSocket transport on :443.
  const FRONTED_QUIC := Ask(Singbox, "hysteria2", 443, "ws", map["ws" := "/x"], [])

  lemma PathAccepted()
    ensures FrontedPathOk("ws", map["ws" := "/x"])
  {
    assert Strip("/x") == "/x";
  }

  lemma TagAccepted()
    ensures ValidTag("a") && ValidTag("b")
  {
  }

  lemma OneExtra(extras: seq<int>, p: nat, primary: nat)
    requires extras == [p] && ValidPort(p) && p !in FRONTED_PORTS && p != primary
    ensures Cleaned(extras, primary) == Some([p])
  {
    var none: seq<nat> := [];
    assert extras[..|extras| - 1] == [];
    assert Cleaned([], primary) == Some(none);
    assert none + [p] == [p];
  }

  // The first inbound's loopback port is one of its own extra ports.
  lemma OwnExtraPort()
    ensures
      var s := After(EMPTY, [Create(OPEN, LOOPBACK_PORT)]);
      && |s.rows| == 1 && s.rows[0].id == 1 && s.rows[0].extraPorts == [20001] && s.rows[0].internalPort == Some(20001)
      && Ok(s) && !LoopbackClear(s.rows)
  {
    hide Ok, ComputePortKey, FrontedPathOk, ValidTag;
    PathAccepted();
    TagAccepted();
    OneExtra(LOOPBACK_PORT.extraPorts, 20001, 80);
    hide After;
    var s := After(EMPTY, [Create(OPEN, LOOPBACK_PORT)]);
    assert NewRow(OPEN, [], 1, LOOPBACK_PORT).Some?;
    OneStep(Create(OPEN, LOOPBACK_PORT));
    var ib := s.rows[0];
    assert 20001 in Direct(ib) && ib in s.rows;
    EmptyRunOk([Create(OPEN, LOOPBACK_PORT)]);
  }

  lemma OneStep(op: Op)
    ensures After(EMPTY, [op]) == Step(EMPTY, op)
  {
    hide Step;
    assert [op][1..] == [];
  }

  lemma TwoSteps(a: Op, b: Op)
    ensures After(EMPTY, [a, b]) == Step(Step(EMPTY, a), b)
  {
    hide Step;
    assert [a, b][1..] == [b] && [b][1..] == [];
    assert After(Step(EMPTY, a), [b]) == Step(Step(EMPTY, a), b);
  }

  lemma EmptyRunOk(ops: seq<Op>)
    ensures Ok(After(EMPTY, ops))
  {
    assert Ok(EMPTY);
    EveryRunOk(EMPTY, ops);
  }

  lemma OneRoute(ib: Inbound)
    requires ib.enabled && ib.internalPort == Some(20001) && ib.network == "ws" && ib.paths == map["ws" := "/x"]
    ensures Nginx.Generated([ib]) == [("/x", 20001)]
  {
    assert [ib][..0] == [];
    assert PathFor("ws", ib.paths) == "/x" && Nginx.Routed(ib);
    assert Nginx.Generated([ib]) == [] + [Nginx.RouteOf(ib)];
  }

  // nginx routes the path to a port nothing listens on.
  lemma QuicBehindNginx()
    ensures
      var s := After(EMPTY, [Create(OPEN, FRONTED_QUIC)]);
      Ok(s) && s.routes == [("/x", 20001)] && !NoFrontedQuic(s.rows)
  {
    hide Ok, ComputePortKey, FrontedPathOk, ValidTag;
    PathAccepted();
    TagAccepted();
    hide After, Nginx.Generated;
    assert NewRow(OPEN, [], 1, FRONTED_QUIC).Some?;
    OneStep(Create(OPEN, FRONTED_QUIC));
    var s := After(EMPTY, [Create(OPEN, FRONTED_QUIC)]);
    var ib := s.rows[0];
    assert s.rows == [ib] && ib in s.rows;
    OneRoute(ib);
    EmptyRunOk([Create(OPEN, FRONTED_QUIC)]);
  }

  // Shadowsocks and Hysteria2 on one port number, one on TCP and UDP, one on UDP.
  const SHADOWSOCKS := Ask(Xray, "shadowsocks", 8388, "tcp", map[], [])
  const HYSTERIA := Ask(Singbox, "hysteria2", 8388, "udp", map[], []).(tag := "b")
  const BOTH: seq<Op> := [Create(OPEN, SHADOWSOCKS), Create(OPEN, HYSTERIA)]
  const MOVE := UpdateRequest(None, None, Some(8389), None, None, None, None, None)

  function SsRow(): Inbound {
    Inbound(1, "a", true, Xray, "shadowsocks", "", 8388, None, ComputePortKey(8388, "shadowsocks", "tcp", map[]), [],
            "tcp", "none", map[], map[])
  }

  function HyRow(): Inbound {
    Inbound(2, "b", true, Singbox, "hysteria2", "", 8388, None, ComputePortKey(8388, "hysteria2", "udp", map[]), [],
            "udp", "none", map[], map[])
  }

  lemma KeysDiffer()
    ensures SsRow().portKey != HyRow().portKey
  {
    assert PathIsNoFamily(SsRow()) && PathIsNoFamily(HyRow());
    PortKeyExact(SsRow(), HyRow());
  }

  lemma BothAccepted()
    ensures After(EMPTY, BOTH).rows == [SsRow(), HyRow()] && Ok(After(EMPTY, BOTH)) && Exact(After(EMPTY, BOTH))
  {
    hide Ok, ComputePortKey, ValidTag, Needed, Firewall.RulesFor, After;
    TagAccepted();
    KeysDiffer();
    assert NewRow(OPEN, [], 1, SHADOWSOCKS) == Some(SsRow());
    assert [SsRow()][..0] == [];
    assert PanelDirectPorts([SsRow()], None, "udp") == {};
    assert NewRow(OPEN, [SsRow()], 2, HYSTERIA) == Some(HyRow());
    var s1 := Step(EMPTY, BOTH[0]);
    assert s1.rows == [SsRow()] && s1.nextId == 2;
    TwoSteps(BOTH[0], BOTH[1]);
    EmptyRunOk(BOTH);
    assert Needed([]) == {} by { NothingNeeded(); }
    CreateExact(OPEN, EMPTY, SHADOWSOCKS);
    CreateExact(OPEN, s1, HYSTERIA);
  }

  lemma NothingNeeded()
    ensures Needed([]) == {}
  {
  }

  // Deleting the Shadowsocks inbound closes the UDP rule that Hysteria2 needs.
  lemma DeleteClosesTooMuch()
    ensures Exact(After(EMPTY, BOTH)) && !Exact(Step(After(EMPTY, BOTH), Delete(OPEN, 1)))
  {
    hide Ok, ComputePortKey, After, Exact;
    BothAccepted();
    var s, rows := After(EMPTY, BOTH), [SsRow(), HyRow()];
    assert rows[..1] == [SsRow()];
    assert Find(rows, 1) == Some(0);
    assert 8388 in Direct(rows[0]) && 8388 in Direct(rows[1]) && ShareUdp(rows[0], rows[1]);
    StepExactIff(s, Delete(OPEN, 1));
  }

  // So does moving it to another port.
  lemma UpdateClosesTooMuch()
    ensures Exact(After(EMPTY, BOTH)) && !Exact(Step(After(EMPTY, BOTH), Update(OPEN, 1, MOVE)))
  {
    hide Ok, ComputePortKey, After, Exact;
    BothAccepted();
    var s, rows := After(EMPTY, BOTH), [SsRow(), HyRow()];
    assert rows[..1] == [SsRow()];
    assert Find(rows, 1) == Some(0);
    Moved();
    hide ChangedRow;
    var next := ChangedRow(OPEN, rows, SsRow(), MOVE).value;
    assert 8388 in Direct(rows[0]) - Direct(next) && 8388 in Direct(rows[1]) && ShareUdp(rows[0], rows[1]);
    StepExactIff(s, Update(OPEN, 1, MOVE));
  }

  lemma Moved()
    ensures
      var next := ChangedRow(OPEN, [SsRow(), HyRow()], SsRow(), MOVE);
      next.Some? && Direct(next.value) == {8389}
  {
    hide ComputePortKey;
    var rows, next := [SsRow(), HyRow()], SsRow().(port := 8389);
    assert rows[..1] == [SsRow()] && [SsRow()][..0] == [];
    assert PanelDirectPorts([SsRow()], Some(1), "tcp") == {} && PanelDirectPorts(rows, Some(1), "tcp") == {};
    assert KeyOf(next) != HyRow().portKey by {
      assert PathIsNoFamily(next) && PathIsNoFamily(HyRow());
      PortKeyExact(next, HyRow());
    }
  }
}
