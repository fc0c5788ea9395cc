/**
 * Reading typed values out of document metadata, the way the services call
 * `metadata.get(key, default)`.
 */
module Fields {
  import opened GraphUtils

  /** `metadata.get(key, default)` for an integer entry; an entry of another kind reads as `default`. */
  function IntField(m: Metadata, key: string, default: int): int
  {
    if key in m && m[key].Int? then m[key].i else default
  }

  /** `metadata.get(key, False)` for a flag; an entry of another kind reads as false. */
  function BoolField(m: Metadata, key: string): bool
  {
    key in m && m[key].Bool? && m[key].b
  }

  /** `metadata.get(key, default)` for a text entry; an entry of another kind reads as `default`. */
  function StrField(m: Metadata, key: string, default: string): string
  {
    if key in m && m[key].Str? then m[key].s else default
  }
}
