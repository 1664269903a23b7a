/** The person record shared by contributors and sponsors (features/Legal/credits/types.ts). */
module CreditTypes {

  datatype Option<+T> = None | Some(value: T)

  /** A contributor or a sponsor: a login, an avatar image address and an optional profile address. */
  datatype Person = Person(login: string, avatar: string, url: Option<string>)
}
