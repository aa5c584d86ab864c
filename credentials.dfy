/**
 * The observable state of a sign-in provider as a value, and the effect of
 * the builder's setters on it. The classes in module Builder are specified
 * against these functions.
 */
module CredentialSpec {
  import opened Wrappers

  /** The four credential fields a builder can write. */
  datatype Field = Email | Password | FacebookToken | GoogleToken

  /** One setter call: the field it writes and the text written to it. */
  datatype Setter = Setter(field: Field, value: string)

  /** What a `SignInProvider<T>` holds: four optional credentials and the payload `instance`. */
  datatype Credentials<T> = Credentials(
    email: Option<string>,
    password: Option<string>,
    facebookToken: Option<string>,
    googleToken: Option<string>,
    instance: Option<T>)

  /** Reads one credential field. */
  function Get<T>(c: Credentials<T>, f: Field): Option<string>
  {
    match f
    case Email => c.email
    case Password => c.password
    case FacebookToken => c.facebookToken
    case GoogleToken => c.googleToken
  }

  /** Two states are equal when every credential field and the payload agree. */
  lemma SameFieldsSame<T>(a: Credentials<T>, b: Credentials<T>)
    requires forall f :: Get(a, f) == Get(b, f)
    requires a.instance == b.instance
    ensures a == b
  {
    assert Get(a, Email) == Get(b, Email);
    assert Get(a, Password) == Get(b, Password);
    assert Get(a, FacebookToken) == Get(b, FacebookToken);
    assert Get(a, GoogleToken) == Get(b, GoogleToken);
  }

  /**
   * The state of a freshly made provider: no credential is set and the
   * payload is the one value `payload` built by the payload type's `init()`.
   */
  function Initial<T>(payload: T): (c: Credentials<T>)
    ensures forall f :: Get(c, f) == None
    ensures c.instance == Some(payload)
  {
    Credentials(None, None, None, None, Some(payload))
  }

  /** The effect of one setter: its field now holds its text, nothing else moves. */
  function Apply<T>(c: Credentials<T>, s: Setter): (r: Credentials<T>)
    ensures Get(r, s.field) == Some(s.value)
    ensures forall f :: f != s.field ==> Get(r, f) == Get(c, f)
    ensures r.instance == c.instance
  {
    match s.field
    case Email => c.(email := Some(s.value))
    case Password => c.(password := Some(s.value))
    case FacebookToken => c.(facebookToken := Some(s.value))
    case GoogleToken => c.(googleToken := Some(s.value))
  }

  /**
   * The effect of a chain of setters called left to right. The payload never
   * changes and there is no way to clear a credential once it is set.
   */
  function ApplyAll<T>(c: Credentials<T>, ops: seq<Setter>): (r: Credentials<T>)
    ensures r.instance == c.instance
    ensures forall f :: Get(c, f).Some? ==> Get(r, f).Some?
    decreases |ops|
  {
    if ops == [] then c else ApplyAll(Apply(c, ops[0]), ops[1..])
  }

  /** The text of the last setter in `ops` that writes `f`, if any writes it. */
  function LastWrite(ops: seq<Setter>, f: Field): Option<string>
    decreases |ops|
  {
    if ops == [] then None
    else if ops[|ops| - 1].field == f then Some(ops[|ops| - 1].value)
    else LastWrite(ops[..|ops| - 1], f)
  }

  /** A chain followed by one more setter is that setter applied to the chain's result. */
  lemma {:induction false} ApplyAllSnoc<T>(c: Credentials<T>, ops: seq<Setter>, s: Setter)
    ensures ApplyAll(c, ops + [s]) == Apply(ApplyAll(c, ops), s)
    decreases |ops|
  {
    if ops == [] {
      assert [s][1..] == [];
    } else {
      assert (ops + [s])[0] == ops[0];
      assert (ops + [s])[1..] == ops[1..] + [s];
      ApplyAllSnoc(Apply(c, ops[0]), ops[1..], s);
    }
  }

  /** Running two chains one after the other is running their concatenation. */
  lemma {:induction false} ApplyAllAppend<T>(c: Credentials<T>, a: seq<Setter>, b: seq<Setter>)
    ensures ApplyAll(c, a + b) == ApplyAll(ApplyAll(c, a), b)
    decreases |a|
  {
    if a == [] {
      assert a + b == b;
    } else {
      assert (a + b)[0] == a[0];
      assert (a + b)[1..] == a[1..] + b;
      ApplyAllAppend(Apply(c, a[0]), a[1..], b);
    }
  }

  /**
   * Last write wins: after a chain, a field holds the text of the last setter
   * that wrote it, or its earlier value when no setter wrote it.
   */
  lemma {:induction false} LastWriteWins<T>(c: Credentials<T>, ops: seq<Setter>, f: Field)
    ensures Get(ApplyAll(c, ops), f) == if LastWrite(ops, f).Some? then LastWrite(ops, f) else Get(c, f)
    decreases |ops|
  {
    if ops != [] {
      var init, last := ops[..|ops| - 1], ops[|ops| - 1];
      assert ops == init + [last];
      ApplyAllSnoc(c, init, last);
      LastWriteWins(c, init, f);
    }
  }

  /**
   * A builder fresh from construction followed by a chain: each field holds
   * exactly its last write (absent when never written) and the payload is the
   * one made at construction.
   */
  lemma FromInitial<T>(payload: T, ops: seq<Setter>)
    ensures forall f :: Get(ApplyAll(Initial(payload), ops), f) == LastWrite(ops, f)
    ensures ApplyAll(Initial(payload), ops).instance == Some(payload)
  {
    forall f ensures Get(ApplyAll(Initial(payload), ops), f) == LastWrite(ops, f) {
      LastWriteWins(Initial(payload), ops, f);
    }
  }

  /**
   * Order independence: two chains that end with the same last write per
   * field leave the provider in the same state, whatever their order.
   */
  lemma OrderIndependent<T>(c: Credentials<T>, ops1: seq<Setter>, ops2: seq<Setter>)
    requires forall f :: LastWrite(ops1, f) == LastWrite(ops2, f)
    ensures ApplyAll(c, ops1) == ApplyAll(c, ops2)
  {
    forall f ensures Get(ApplyAll(c, ops1), f) == Get(ApplyAll(c, ops2), f) {
      LastWriteWins(c, ops1, f);
      LastWriteWins(c, ops2, f);
    }
    SameFieldsSame(ApplyAll(c, ops1), ApplyAll(c, ops2));
  }

  /** Setters of different fields commute. */
  lemma ApplyCommutes<T>(c: Credentials<T>, s1: Setter, s2: Setter)
    requires s1.field != s2.field
    ensures Apply(Apply(c, s1), s2) == Apply(Apply(c, s2), s1)
  {
  }

  /** A second write to the same field replaces the first. */
  lemma Overwrite<T>(c: Credentials<T>, f: Field, v1: string, v2: string)
    ensures Apply(Apply(c, Setter(f, v1)), Setter(f, v2)) == Apply(c, Setter(f, v2))
  {
  }

  /**
   * Inside any chain, two adjacent setters of different fields can be swapped
   * without changing the final state.
   */
  lemma SwapAdjacent<T>(c: Credentials<T>, pre: seq<Setter>, s1: Setter, s2: Setter, post: seq<Setter>)
    requires s1.field != s2.field
    ensures ApplyAll(c, pre + [s1, s2] + post) == ApplyAll(c, pre + [s2, s1] + post)
  {
    var mid := ApplyAll(c, pre);
    ApplyAllAppend(c, pre + [s1, s2], post);
    ApplyAllAppend(c, pre, [s1, s2]);
    ApplyAllAppend(c, pre + [s2, s1], post);
    ApplyAllAppend(c, pre, [s2, s1]);
    ApplyAllSnoc(mid, [s1], s2);
    ApplyAllSnoc(mid, [s2], s1);
    assert [s1] + [s2] == [s1, s2];
    assert [s2] + [s1] == [s2, s1];
    assert ApplyAll(mid, [s1]) == Apply(mid, s1) by { ApplyAllSnoc(mid, [], s1); assert [] + [s1] == [s1]; }
    assert ApplyAll(mid, [s2]) == Apply(mid, s2) by { ApplyAllSnoc(mid, [], s2); assert [] + [s2] == [s2]; }
    ApplyCommutes(mid, s1, s2);
  }
}
