/** The packed log record and flight metadata that both logs store. */
module Records {
  import opened Bytes

  const RECORD_BYTES := 60
  const METADATA_BYTES := 128

  type Record = r: seq<byte> | |r| == RECORD_BYTES witness seq(RECORD_BYTES, _ => 0)
  type Metadata = m: seq<byte> | |m| == METADATA_BYTES witness seq(METADATA_BYTES, _ => 0)

  datatype Option<+T> = None | Some(value: T)
}
