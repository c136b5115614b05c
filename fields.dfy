/** The Zod field checks the schemas use, as predicates on JSON values and string maps.
    Zod's URL and UUID recognisers are not modelled: they are the parameters `isUrl` and
    `isUuid`. String lengths are counted in characters. */
module Fields {
  import opened Wrappers
  import opened Strings
  import opened Json

  datatype Formats = Formats(isUrl: string -> bool, isUuid: string -> bool)

  /** `z.string().min(lo)`, and `.max(hi)` when `hi` is given. */
  predicate IsString(v: Json, lo: nat, hi: Option<nat>) {
    v.JStr? && lo <= |v.s| && (hi.Some? ==> |v.s| <= hi.value)
  }

  /** `z.string().url()`. */
  predicate IsUrl(fmt: Formats, v: Json) {
    v.JStr? && fmt.isUrl(v.s)
  }

  /** `z.enum(values)`. */
  predicate IsEnum(v: Json, values: seq<string>) {
    v.JStr? && v.s in values
  }

  /** `z.array(z.enum(values)).min(1)`. */
  predicate IsEnumArray(v: Json, values: seq<string>) {
    v.JArr? && |v.items| >= 1 && forall i :: 0 <= i < |v.items| ==> IsEnum(v.items[i], values)
  }

  /** `z.array(z.string().min(1)).min(1)`. */
  predicate IsNonEmptyStringArray(v: Json) {
    v.JArr? && |v.items| >= 1 && forall i :: 0 <= i < |v.items| ==> IsString(v.items[i], 1, None)
  }

  /** `z.number().int()` with a lower bound: `.positive()` is `lo = 1`, `.min(0)` is `lo = 0`. */
  predicate IsIntAtLeast(v: Json, lo: int) {
    v.JNum? && IsInteger(v.n) && v.n >= lo as real
  }

  /** `z.boolean()`. */
  predicate IsBool(v: Json) {
    v.JBool?
  }

  /** An optional string query parameter matching `/^\d+$/` when present. */
  predicate OptionalDigits(q: map<string, string>, key: string) {
    key !in q || IsDigitString(q[key])
  }

  /** An optional query parameter that must be one of `values` when present. */
  predicate OptionalMember(q: map<string, string>, key: string, values: seq<string>) {
    key !in q || q[key] in values
  }

  /** `params: z.object({ id: z.string().uuid() })`. */
  predicate HasUuidId(fmt: Formats, params: map<string, string>) {
    "id" in params && fmt.isUuid(params["id"])
  }

  /** The update refinement `Object.keys(data).length > 0` on the parsed body: `z.object`
      keeps only the keys its shape declares, and an optional key absent from the input is not
      set, so the parsed body has a key exactly when the input has a declared one. */
  predicate HasDeclaredKey(body: Record, declared: set<string>) {
    body.Keys * declared != {}
  }
}
