/** The auth service's `isValidPaiload` check on a decoded token. */
module TokenUtils {
  import opened Json

  /** `typeof v === "object" && v !== null && typeof v.id === "string"`. */
  predicate IsValidPayload(v: Json) {
    TypeOf(v) == "object" && v != Null && TypeOf(Get(v, "id")) == "string"
  }

  /**
   * Exactly the plain objects whose `id` field is a string pass, whatever their
   * other fields; null, arrays and every non-object are refused.
   */
  lemma ValidPayloadMeaning(v: Json)
    ensures IsValidPayload(v) <==> v.Obj? && "id" in v.fields && v.fields["id"].Str?
  {
  }

  /** Other fields do not matter. */
  lemma ExtraFieldsIgnored(fields: map<string, Json>, key: string, value: Json)
    requires key != "id"
    ensures IsValidPayload(Obj(fields[key := value])) == IsValidPayload(Obj(fields))
  {
  }
}
