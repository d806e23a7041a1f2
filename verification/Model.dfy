/** Plain records shared by the trackers and the timeline (src/network/models, src/process/models, src/process/events).

Times are seconds since the epoch as reals, so every result holds for any clock resolution;
`EPOCH` is the value of a default-constructed time point. */
module Model {
  const TWO_TO_THE_64: int := 0x1_0000_0000_0000_0000

  type uint16 = n: int | 0 <= n < 0x1_0000
  type uint32 = n: int | 0 <= n < 0x1_0000_0000
  type uint64 = n: int | 0 <= n < TWO_TO_THE_64

  type Time = real
  const EPOCH: Time := 0.0

  datatype Option<+T> = None | Some(value: T)

  datatype Protocol = TCP | UDP | UNKNOWN {
    /** The enumerator's integer value, as the keys print it. */
    function Code(): nat {
      match this
      case TCP => 0
      case UDP => 1
      case UNKNOWN => 2
    }
  }

  datatype ConnectionState = LISTENING | ESTABLISHED | TIME_WAIT | CLOSE_WAIT | CLOSED | STATE_UNKNOWN

  datatype Connection = Connection(
    processId: uint32,
    localAddress: string,
    localPort: uint16,
    remoteAddress: string,
    remotePort: uint16,
    protocol: Protocol,
    state: ConnectionState,
    timestamp: Time)

  /** The byte counters of a connection come in two directions that the code treats alike. */
  datatype Direction = Upload | Download

  datatype TransferSnapshot = TransferSnapshot(
    connection: Connection,
    bytesSent: uint64,
    bytesReceived: uint64,
    processName: string)
  {
    function Bytes(d: Direction): uint64 {
      match d
      case Upload => bytesSent
      case Download => bytesReceived
    }

    /** The time a row counts as observed: its own timestamp, or the clock when it carries none. */
    function Stamp(now: Time): Time {
      if connection.timestamp != EPOCH then connection.timestamp else now
    }
  }

  datatype ProcessStatus = RUNNING | TERMINATED

  datatype ProcessInfo = ProcessInfo(processId: uint32, processName: string, parentProcessId: uint32,
    status: ProcessStatus)

  datatype ProcessEventType = PROCESS_CREATED | PROCESS_TERMINATED

  datatype ProcessEvent = ProcessEvent(eventType: ProcessEventType, processInfo: ProcessInfo, timestamp: Time)

  /** Unsigned 64-bit arithmetic wraps around. */
  function Wrap(n: nat): uint64 {
    n % TWO_TO_THE_64
  }

  lemma {:induction false} WrapAdd(a: nat, b: nat)
    ensures Wrap(Wrap(a) + b) == Wrap(a + b)
  {
  }

  lemma {:induction false} WrapSum(a: nat, b: nat, c: nat)
    requires Wrap(b) == Wrap(c)
    ensures Wrap(Wrap(a) + b) == Wrap(a + c)
  {
    hide Wrap;
    WrapAdd(a, b);
    WrapAdd(b, a);
    WrapAdd(c, a);
  }

  lemma {:induction false} WrapSmall(a: nat)
    requires a < TWO_TO_THE_64
    ensures Wrap(a) == a
  {
  }
}
