/**
 * The Joi validation schemas of backend/server.js as predicates on request
 * bodies. Joi's `object()` refuses keys the schema does not name, its
 * `string()` refuses non-strings and, unless allowed, the empty string.
 * The format check of `email()` is a library call and is passed in as
 * `isEmail`.
 */
module Schemas {

  /** A field of a JSON body as Joi sees it. */
  datatype Field = Absent | Str(s: string) | NotString

  datatype RegisterBody = RegisterBody(email: Field, password: Field, unknownKeys: bool)
  datatype LoginBody = LoginBody(email: Field, password: Field, unknownKeys: bool)
  datatype JobBody = JobBody(title: Field, company: Field, location: Field, description: Field, unknownKeys: bool)
  datatype ApplyBody = ApplyBody(coverLetter: Field, unknownKeys: bool)

  /** `Joi.string().min(n).required()`. */
  predicate RequiredString(f: Field, n: nat) {
    f.Str? && f.s != "" && |f.s| >= n
  }

  /** `Joi.string().email().required()`. */
  predicate RequiredEmail(f: Field, isEmail: string -> bool) {
    RequiredString(f, 0) && isEmail(f.s)
  }

  /** registerSchema. */
  predicate RegisterValid(b: RegisterBody, isEmail: string -> bool) {
    !b.unknownKeys && RequiredEmail(b.email, isEmail) && RequiredString(b.password, 6)
  }

  /** loginSchema: any non-empty password string. */
  predicate LoginValid(b: LoginBody, isEmail: string -> bool) {
    !b.unknownKeys && RequiredEmail(b.email, isEmail) && RequiredString(b.password, 0)
  }

  /** jobSchema. */
  predicate JobValid(b: JobBody) {
    && !b.unknownKeys
    && RequiredString(b.title, 3)
    && RequiredString(b.company, 2)
    && RequiredString(b.location, 2)
    && RequiredString(b.description, 10)
  }

  /** applySchema: an optional string of at most 500 characters, "" allowed. */
  predicate ApplyValid(b: ApplyBody) {
    !b.unknownKeys && (b.coverLetter.Absent? || (b.coverLetter.Str? && |b.coverLetter.s| <= 500))
  }

  /** The limits each schema puts on a body it accepts, and the bodies it turns away. */
  lemma SchemaLimits(r: RegisterBody, l: LoginBody, j: JobBody, a: ApplyBody, isEmail: string -> bool)
    ensures r.password.Str? && |r.password.s| < 6 ==> !RegisterValid(r, isEmail)
    ensures !r.password.Str? || !r.email.Str? || r.unknownKeys ==> !RegisterValid(r, isEmail)
    ensures RegisterValid(r, isEmail) ==> isEmail(r.email.s) && r.email.s != ""
    ensures forall e: string, pw: string ::
      e != "" && isEmail(e) && |pw| >= 6 ==> RegisterValid(RegisterBody(Str(e), Str(pw), false), isEmail)
    ensures LoginValid(l, isEmail) ==> l.password.Str? && l.password.s != ""
    ensures JobValid(j) ==> |j.title.s| >= 3 && |j.company.s| >= 2 && |j.location.s| >= 2 && |j.description.s| >= 10
    ensures a.coverLetter == Str("") && !a.unknownKeys ==> ApplyValid(a)
    ensures a.coverLetter.NotString? || (a.coverLetter.Str? && |a.coverLetter.s| > 500) ==> !ApplyValid(a)
  {
  }
}
