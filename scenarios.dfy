/**
 * The three payload types of the playground and the sign-in chains built
 * with them, plus two client methods: `build` hands out a live object, and
 * two setters of different fields give the same state in either order.
 */
module Scenarios {
  import opened Wrappers
  import opened CredentialSpec
  import opened Builder

  /** Payload of a plain email/password sign-in (its network session is not modelled). */
  datatype UserSignIn = UserSignIn

  /** Payload of a Facebook sign-in: an API key (`init()` sets it to "some api key"). */
  datatype FacebookSignIn = FacebookSignIn(apiKey: string)

  /** Payload of a Google sign-in: an API key and a host (`init()` sets "some api key" and "https://google.com"). */
  datatype GoogleSignIn = GoogleSignIn(apiKey: string, host: string)

  /** `setEmail("test@host.com").setPassword("test123").build()` on a `UserSignIn` builder. */
  method UserSignInExample() returns (p: SignInProvider<UserSignIn>)
    ensures p.email == Some("test@host.com") && p.password == Some("test123")
    ensures p.facebookToken == None && p.googleToken == None
    ensures p.instance == Some(UserSignIn)
  {
    var b := new SignInBuilder<UserSignIn>(UserSignIn);
    var b1 := b.SetEmail("test@host.com");
    var b2 := b1.SetPassword("test123");
    p := b2.Build();
  }

  /** `setFacebookToken(...).build()` on a `FacebookSignIn` builder: only that token is set. */
  method FacebookSignInExample(token: string) returns (p: SignInProvider<FacebookSignIn>)
    ensures p.facebookToken == Some(token)
    ensures p.email == None && p.password == None && p.googleToken == None
    ensures p.instance.Some? && p.instance.value.apiKey == "some api key"
  {
    var b := new SignInBuilder<FacebookSignIn>(FacebookSignIn("some api key"));
    var b1 := b.SetFacebookToken(token);
    p := b1.Build();
  }

  /** `setGoogleToken(...).build()` on a `GoogleSignIn` builder: the payload keeps its key and host. */
  method GoogleSignInExample(token: string) returns (p: SignInProvider<GoogleSignIn>)
    ensures p.googleToken == Some(token)
    ensures p.email == None && p.password == None && p.facebookToken == None
    ensures p.instance == Some(GoogleSignIn("some api key", "https://google.com"))
  {
    var b := new SignInBuilder<GoogleSignIn>(GoogleSignIn("some api key", "https://google.com"));
    var b1 := b.SetGoogleToken(token);
    p := b1.Build();
  }

  /**
   * `build` before a setter and `build` after it return the same object, and
   * the write made in between shows through the earlier result.
   */
  method BuildIsLiveView<T>(payload: T, email: string) returns (before: SignInProvider<T>, after: SignInProvider<T>)
    ensures before == after
    ensures before.email == Some(email)
    ensures before.password == None && before.instance == Some(payload)
  {
    var b := new SignInBuilder<T>(payload);
    before := b.Build();
    assert before.email == None;
    var b1 := b.SetEmail(email);
    after := b1.Build();
  }

  /**
   * A chain of setter calls on one builder leaves its provider in the state
   * given by `ApplyAll`, in either order of two different setters.
   */
  method ChainInEitherOrder<T>(payload: T, email: string, password: string)
    returns (p: SignInProvider<T>, q: SignInProvider<T>)
    ensures p != q
    ensures p.State() == q.State()
    ensures p.State() == ApplyAll(Initial(payload), [Setter(Email, email), Setter(Password, password)])
  {
    var se, sp := Setter(Email, email), Setter(Password, password);
    var b := new SignInBuilder<T>(payload);
    var b1 := b.SetEmail(email);
    var b2 := b1.SetPassword(password);
    p := b2.Build();
    var c := new SignInBuilder<T>(payload);
    var c1 := c.SetPassword(password);
    var c2 := c1.SetEmail(email);
    q := c2.Build();
    var i := Initial(payload);
    assert ApplyAll(i, [se, sp]) == Apply(Apply(i, se), sp) by {
      assert [se, sp][1..] == [sp] && [sp][1..] == [];
      assert ApplyAll(i, [se, sp]) == ApplyAll(Apply(i, se), [sp]);
      assert ApplyAll(Apply(i, se), [sp]) == ApplyAll(Apply(Apply(i, se), sp), []);
    }
    assert ApplyAll(i, [sp, se]) == Apply(Apply(i, sp), se) by {
      assert [sp, se][1..] == [se] && [se][1..] == [];
      assert ApplyAll(i, [sp, se]) == ApplyAll(Apply(i, sp), [se]);
      assert ApplyAll(Apply(i, sp), [se]) == ApplyAll(Apply(Apply(i, sp), se), []);
    }
    assert [se, sp] == [] + [se, sp] + [] && [sp, se] == [] + [sp, se] + [];
    SwapAdjacent(Initial(payload), [], se, sp, []);
  }
}
