/**
 * The two library parsers project creation runs on a fetched plan file:
 * `from_base64` (rustc_serialize) and `Plan::from_bytes` (hab_core). Their
 * internals are not part of this model; each is an oracle that succeeds or fails.
 */
module Plans {
  import opened Wrappers

  type byte = bv8

  /** The only field of a parsed plan the handlers read. */
  datatype Plan = Plan(name: string)

  datatype Parsers = Parsers(
    fromBase64: string -> Option<seq<byte>>,
    planFromBytes: seq<byte> -> Option<Plan>)
}
