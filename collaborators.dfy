/** The collaborators the core is handed at startup: the token
    configuration and serialisation, zod's format recognisers and the
    password hasher, each taken as given. */
module Collaborators {
  import Jwt
  import Validation

  /** bcrypt's `hash` and `compare`, with the salt left abstract. */
  datatype Hasher = Hasher(hash: string -> string, compare: (string, string) -> bool)

  /** The one law the core relies on: a password matches its own hash. */
  ghost predicate Sound(h: Hasher)
  {
    forall password: string :: h.compare(password, h.hash(password))
  }

  datatype Services = Services(
    jwt: Jwt.Config,
    codec: Jwt.Codec,
    formats: Validation.Formats,
    hasher: Hasher)
}
