/**
 * The generic builder: `SignInProvider<T>` holds the credentials and the
 * payload, `SignInBuilder<T>` owns one provider and writes it through
 * chained setters. The payload type `T` is opaque; the one value its
 * `init()` makes is handed to the constructors.
 */
module Builder {
  import opened Wrappers
  import opened CredentialSpec

  /** The object a builder fills in and finally hands out. */
  class SignInProvider<T> {
    var email: Option<string>
    var password: Option<string>
    var facebookToken: Option<string>
    var googleToken: Option<string>
    var instance: Option<T>

    /** The provider's fields as one value. */
    function State(): Credentials<T>
      reads this
    {
      Credentials(email, password, facebookToken, googleToken, instance)
    }

    /**
     * `payload` is the value `T.init()` produces; the cast of it to `T`
     * always succeeds, so `instance` is present. The credentials start absent.
     */
    constructor (payload: T)
      ensures email == None && password == None
      ensures facebookToken == None && googleToken == None
      ensures instance == Some(payload)
      ensures State() == Initial(payload)
    {
      email, password, facebookToken, googleToken := None, None, None, None;
      instance := Some(payload);
    }
  }

  /** Fluent builder over one provider; `innerBuild` is never reassigned. */
  class SignInBuilder<T> {
    const innerBuild: SignInProvider<T>

    /** A new builder owns a new provider with no credentials and one payload. */
    constructor (payload: T)
      ensures fresh(innerBuild)
      ensures innerBuild.State() == Initial(payload)
    {
      innerBuild := new SignInProvider(payload);
    }

    /** Writes `email`, leaves every other field as it was and returns this builder. */
    method SetEmail(email: string) returns (r: SignInBuilder<T>)
      modifies innerBuild`email
      ensures r == this
      ensures innerBuild.email == Some(email)
      ensures unchanged(innerBuild`password, innerBuild`facebookToken, innerBuild`googleToken, innerBuild`instance)
      ensures innerBuild.State() == Apply(old(innerBuild.State()), Setter(Email, email))
    {
      innerBuild.email := Some(email);
      r := this;
    }

    /** Writes `password`, leaves every other field as it was and returns this builder. */
    method SetPassword(password: string) returns (r: SignInBuilder<T>)
      modifies innerBuild`password
      ensures r == this
      ensures innerBuild.password == Some(password)
      ensures unchanged(innerBuild`email, innerBuild`facebookToken, innerBuild`googleToken, innerBuild`instance)
      ensures innerBuild.State() == Apply(old(innerBuild.State()), Setter(Password, password))
    {
      innerBuild.password := Some(password);
      r := this;
    }

    /** Writes `facebookToken`, leaves every other field as it was and returns this builder. */
    method SetFacebookToken(facebookToken: string) returns (r: SignInBuilder<T>)
      modifies innerBuild`facebookToken
      ensures r == this
      ensures innerBuild.facebookToken == Some(facebookToken)
      ensures unchanged(innerBuild`email, innerBuild`password, innerBuild`googleToken, innerBuild`instance)
      ensures innerBuild.State() == Apply(old(innerBuild.State()), Setter(FacebookToken, facebookToken))
    {
      innerBuild.facebookToken := Some(facebookToken);
      r := this;
    }

    /** Writes `googleToken`, leaves every other field as it was and returns this builder. */
    method SetGoogleToken(googleToken: string) returns (r: SignInBuilder<T>)
      modifies innerBuild`googleToken
      ensures r == this
      ensures innerBuild.googleToken == Some(googleToken)
      ensures unchanged(innerBuild`email, innerBuild`password, innerBuild`facebookToken, innerBuild`instance)
      ensures innerBuild.State() == Apply(old(innerBuild.State()), Setter(GoogleToken, googleToken))
    {
      innerBuild.googleToken := Some(googleToken);
      r := this;
    }

    /**
     * Hands out the builder's own provider, not a copy, and changes nothing:
     * later setter calls stay visible through the returned object.
     */
    method Build() returns (p: SignInProvider<T>)
      ensures p == innerBuild
    {
      p := innerBuild;
    }
  }
}
