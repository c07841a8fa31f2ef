/** The merchant record types and their field constraints.

    `MerchantBase` carries the two client-supplied fields; `MerchantCreate`
    and `MerchantUpdate` are the same shape under two names; `MerchantOut` is
    the base fields plus the store-assigned `id`. A record only exists once
    its constraints hold (the validation layer refuses the rest before any
    store operation runs), which `Parse` models. */
module Schemas {

  datatype Option<T> = None | Some(value: T)

  /** Inclusive bounds on the length of `name`. */
  const NameMinLength: nat := 1
  const NameMaxLength: nat := 100
  /** Upper bound on the length of `description`, when one is given. */
  const DescriptionMaxLength: nat := 500

  /** The fields shared by every merchant record. `None` (absent) and
      `Some("")` (empty) are different descriptions. */
  datatype MerchantBase = MerchantBase(name: string, description: Option<string>)

  /** The create and update payloads have exactly the base fields. */
  type MerchantCreate = MerchantBase
  type MerchantUpdate = MerchantBase

  /** A stored or returned record: the base fields plus an integer id. */
  datatype MerchantOut = MerchantOut(id: int, name: string, description: Option<string>)

  predicate ValidName(name: string) {
    NameMinLength <= |name| <= NameMaxLength
  }

  predicate ValidDescription(description: Option<string>) {
    description.None? || |description.value| <= DescriptionMaxLength
  }

  predicate ValidBase(b: MerchantBase) {
    ValidName(b.name) && ValidDescription(b.description)
  }

  /** The output schema inherits the base constraints and puts none on `id`. */
  predicate ValidOut(m: MerchantOut) {
    ValidName(m.name) && ValidDescription(m.description)
  }

  /** Building a payload from raw fields: it succeeds exactly when the field
      constraints hold, and then keeps the fields as given. */
  function Parse(name: string, description: Option<string>): (r: Option<MerchantBase>)
    ensures r.Some? <==>
              1 <= |name| <= 100 &&
              (description.None? || |description.value| <= 500)
    ensures r.Some? ==> r.value.name == name && r.value.description == description
    ensures r.Some? ==> ValidBase(r.value)
  {
    if ValidName(name) && ValidDescription(description) then
      Some(MerchantBase(name, description))
    else
      None
  }

  /** The base part of an output record. */
  function AsBase(m: MerchantOut): MerchantBase {
    MerchantBase(m.name, m.description)
  }

  /** An output record built from an id and a payload's fields. */
  function FromBase(id: int, b: MerchantBase): (m: MerchantOut)
    ensures m.id == id && AsBase(m) == b
    ensures ValidBase(b) <==> ValidOut(m)
  {
    MerchantOut(id, b.name, b.description)
  }

  /** An output record is determined by its id and its base fields. */
  lemma OutRoundTrip(m: MerchantOut)
    ensures FromBase(m.id, AsBase(m)) == m
    ensures ValidOut(m) <==> ValidBase(AsBase(m))
  {
  }

  /** The name length bounds are inclusive at both ends, and an absent
      description and an empty one are both accepted and kept apart. */
  lemma ParseBoundaries()
    ensures Parse("", None).None?
    ensures Parse(seq(100, _ => 'a'), None).Some?
    ensures Parse(seq(101, _ => 'a'), None).None?
    ensures Parse("Acme", Some(seq(500, _ => 'd'))).Some?
    ensures Parse("Acme", Some(seq(501, _ => 'd'))).None?
    ensures Parse("Acme", None) != Parse("Acme", Some(""))
    ensures Parse("Acme", None).Some? && Parse("Acme", Some("")).Some?
  {
  }
}
