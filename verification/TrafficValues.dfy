/** Byte counts per user hash, as they are queued, frozen and sent. */
module TrafficValues {

  const UINT64_MAX: nat := 0xFFFF_FFFF_FFFF_FFFF
  const INT64_MAX: nat := 0x7FFF_FFFF_FFFF_FFFF

  /** Bytes from the client's point of view: up is client upload. */
  datatype Traffic = Traffic(up: nat, down: nat)

  datatype Direction = Up | Down

  type Batch = map<string, Traffic>

  /** A running total per user and direction, kept for specification only. */
  type Ledger = (string, Direction) -> int

  function Amount(t: Traffic, d: Direction): nat {
    match d case Up => t.up case Down => t.down
  }

  /** What a batch holds for one user in one direction. */
  function At(b: Batch, h: string, d: Direction): nat {
    if h in b then Amount(b[h], d) else 0
  }

  function Credit(l: Ledger, b: Batch): Ledger {
    (h: string, d: Direction) => l(h, d) + At(b, h, d)
  }
}
