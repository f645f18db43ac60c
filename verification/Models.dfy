// The rows of the panel's database that the state machines act on.
module Models {

  datatype Option<+T> = None | Some(value: T)

  function Or<T>(o: Option<T>, current: T): T {
    if o.Some? then o.value else current
  }

  datatype CoreKind = Xray | Singbox

  // An inbound row. `paths` holds, per transport, the "path" of that transport's
  // stream_settings block when the block is a dict with a string path.
  datatype Inbound = Inbound(
    id: nat,
    tag: string,
    enabled: bool,
    core: CoreKind,
    protocol: string,
    listen: string,
    port: nat,
    internalPort: Option<nat>,
    portKey: string,
    extraPorts: seq<nat>,
    network: string,
    security: string,
    settings: map<string, string>,
    paths: map<string, string>)

  // The part of a client row that ends up inside a core's config.
  datatype Account = Account(
    id: nat,
    inboundId: nat,
    email: string,
    uuid: string,
    password: string,
    flow: string)

  datatype Client = Client(
    account: Account,
    enabled: bool,
    limitIp: nat,
    totalBytes: nat,
    expiryTime: nat,
    ipLimitExceeded: bool,
    up: nat,
    down: nat)
  {
    function Id(): nat { account.id }

    // `now` is the clock in seconds; `expiryTime` is in milliseconds, 0 = never.
    predicate IsExpired(now: real) {
      expiryTime != 0 && now * 1000.0 >= expiryTime as real
    }

    predicate IsQuotaExceeded() {
      totalBytes != 0 && up + down >= totalBytes
    }

    predicate IsUsable(now: real) {
      enabled && !IsExpired(now) && !IsQuotaExceeded() && !ipLimitExceeded
    }
  }

  datatype Db = Db(inbounds: seq<Inbound>, clients: seq<Client>)

  // The clock of a run never goes back.
  predicate InOrder<T(!new)>(run: seq<T>, time: T -> real) {
    forall i, j :: 0 <= i <= j < |run| ==> time(run[i]) <= time(run[j])
  }
}
