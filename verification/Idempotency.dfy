/** The idempotency interceptor in front of the request endpoints. */
module Idempotency {
  import opened Common

  /** Serialized bodies stand for themselves: the payload hash is taken as injective. */
  datatype Body = Null | Json(text: string)

  datatype Handled = Returned(body: Body, status: nat) | Threw(error: DomainError)

  datatype StoredKey = StoredKey(payload: string, response: Body, statusCode: nat)

  /** An HTTP call: `route` is the route pattern, `path` the concrete URL, `handler` what the endpoint does. */
  datatype Call<!S> = Call(verb: string, route: Option<string>, path: string, key: string, payload: string, handler: S -> (S, Handled))

  datatype Reply = Answer(body: Body, status: nat) | Problem(error: DomainError)

  /** Application state and the key table. */
  datatype Server<S> = Server(app: S, keys: map<string, StoredKey>)

  function Scope<S>(c: Call<S>): string {
    c.verb + " " + (if c.route.Some? then c.route.value else c.path)
  }

  function FullKey<S>(c: Call<S>): string {
    Scope(c) + "::" + c.key
  }

  function Coalesce(b: Body): Body {
    if b.Null? then Json("{}") else b
  }

  predicate Handles<S>(s: Server<S>, c: Call<S>) {
    c.key == "" || FullKey(c) !in s.keys
  }

  function Intercept<S>(s: Server<S>, c: Call<S>): (Server<S>, Reply) {
    if Handles(s, c) then
      var (app, h) := c.handler(s.app);
      match h
      case Threw(e) => (s.(app := app), Problem(e))
      case Returned(body, status) =>
        var keys := if c.key == "" then s.keys
                    else s.keys[FullKey(c) := StoredKey(c.payload, Coalesce(body), status)];
        (Server(app, keys), Answer(body, status))
    else
      var stored := s.keys[FullKey(c)];
      if stored.payload != c.payload then (s, Problem(IdempotencyConflict))
      else (s, Answer(stored.response, stored.statusCode))
  }

  /** A call without a key, or with a key not stored, runs its handler once: its effect, answer and error are the call's. */
  lemma FreshCallRuns<S>(s: Server<S>, c: Call<S>)
    requires c.key == "" || FullKey(c) !in s.keys
    ensures var (app, h) := c.handler(s.app);
            var (s', r) := Intercept(s, c);
            && s'.app == app
            && (match h
                case Returned(body, status) => r == Answer(body, status)
                case Threw(e) => r == Problem(e) && s'.keys == s.keys)
            && (c.key == "" ==> s'.keys == s.keys)
            && (c.key != "" && h.Returned? ==>
                  s'.keys == s.keys[FullKey(c) :=
                    StoredKey(c.payload, if h.body.Null? then Json("{}") else h.body, h.status)])
  {
  }

  /** Calls share a stored key only if they share the client's key, and then the verb and the route. */
  lemma KeysSeparate<S>(a: Call<S>, b: Call<S>)
    ensures Scope(a) == Scope(b) && FullKey(a) == FullKey(b) ==> a.key == b.key
    ensures a.key == b.key && FullKey(a) == FullKey(b) ==> Scope(a) == Scope(b)
    ensures Scope(a) == Scope(b) && a.verb == b.verb && a.route.Some? && b.route.Some? ==> a.route == b.route
    ensures Scope(a) == Scope(b) && a.route == b.route && a.route.Some? ==> a.verb == b.verb
    ensures Scope(a) == Scope(b) && a.route.None? && b.route.None? && a.verb == b.verb ==> a.path == b.path
  {
    Cancel(Scope(a) + "::", Scope(b) + "::", a.key, b.key);
    Cancel(Scope(a), Scope(b), "::" + a.key, "::" + b.key);
    assert FullKey(a) == Scope(a) + ("::" + a.key) && FullKey(b) == Scope(b) + ("::" + b.key);
    var x := if a.route.Some? then a.route.value else a.path;
    var y := if b.route.Some? then b.route.value else b.path;
    Cancel(a.verb + " ", b.verb + " ", x, y);
    Cancel(a.verb, b.verb, " " + x, " " + y);
    assert Scope(a) == a.verb + (" " + x) && Scope(b) == b.verb + (" " + y);
  }

  /** Concatenation can be cancelled on either side. */
  lemma Cancel(a: string, b: string, c: string, d: string)
    ensures a == b && a + c == b + d ==> c == d
    ensures c == d && a + c == b + d ==> a == b
  {
    if a + c == b + d {
      if a == b {
        assert c == (a + c)[|a|..] && d == (b + d)[|b|..];
      }
      if c == d {
        assert |a| == |b|;
        assert a == (a + c)[..|a|] && b == (b + d)[..|b|];
      }
    }
  }

  /** The server after calls served one at a time. */
  function Serve<S>(s: Server<S>, calls: seq<Call<S>>): Server<S> {
    if calls == [] then s else Intercept(Serve(s, calls[..|calls| - 1]), calls[|calls| - 1]).0
  }

  /** Call i ran its handler, and the handler returned. */
  predicate Succeeds<S>(s: Server<S>, calls: seq<Call<S>>, i: nat)
    requires i < |calls|
  {
    var before := Serve(s, calls[..i]);
    Handles(before, calls[i]) && calls[i].handler(before.app).1.Returned?
  }

  lemma {:induction false} KeysPersist<S>(s: Server<S>, calls: seq<Call<S>>, n: nat, k: string)
    requires n <= |calls| && k in Serve(s, calls[..n]).keys
    ensures k in Serve(s, calls).keys && Serve(s, calls).keys[k] == Serve(s, calls[..n]).keys[k]
  {
    if n < |calls| {
      var m := |calls| - 1;
      assert calls[..m][..n] == calls[..n];
      KeysPersist(s, calls[..m], n, k);
    } else {
      assert calls[..n] == calls;
    }
  }

  /**
   * At most one handler run succeeds per scope and key; every later call with that scope and key leaves the whole
   * server unchanged, and gets the first success's status and body if its payload is the same, a conflict otherwise.
   */
  lemma AtMostOnce<S>(s: Server<S>, calls: seq<Call<S>>, i: nat, j: nat)
    requires i < j < |calls| && Succeeds(s, calls, i)
    requires calls[i].key != "" && calls[j].key == calls[i].key && Scope(calls[j]) == Scope(calls[i])
    ensures !Succeeds(s, calls, j)
    ensures Serve(s, calls[..j + 1]) == Serve(s, calls[..j])
    ensures var first := calls[i].handler(Serve(s, calls[..i]).app).1;
            Intercept(Serve(s, calls[..j]), calls[j]).1 ==
            if calls[j].payload == calls[i].payload then Answer(Coalesce(first.body), first.status)
            else Problem(IdempotencyConflict)
  {
    assert calls[..i + 1][..i] == calls[..i] && calls[..j + 1][..j] == calls[..j];
    assert FullKey(calls[i]) in Serve(s, calls[..i + 1]).keys;
    assert calls[..j][..i + 1] == calls[..i + 1];
    KeysPersist(s, calls[..j], i + 1, FullKey(calls[i]));
  }

  /** Some call of the sequence succeeded under this full key. */
  ghost predicate SomeSuccess<S>(s: Server<S>, calls: seq<Call<S>>, k: string) {
    exists i :: 0 <= i < |calls| && calls[i].key != "" && FullKey(calls[i]) == k && Succeeds(s, calls, i)
  }

  lemma SuccessSplits<S>(s: Server<S>, calls: seq<Call<S>>, k: string)
    requires calls != []
    ensures var m := |calls| - 1;
            SomeSuccess(s, calls, k) <==>
            SomeSuccess(s, calls[..m], k) || (calls[m].key != "" && FullKey(calls[m]) == k && Succeeds(s, calls, m))
  {
    var m := |calls| - 1;
    forall i | 0 <= i < m ensures Succeeds(s, calls[..m], i) == Succeeds(s, calls, i) {
      assert calls[..m][..i] == calls[..i];
    }
    if SomeSuccess(s, calls[..m], k) {
      var i :| 0 <= i < m && calls[..m][i].key != "" && FullKey(calls[..m][i]) == k && Succeeds(s, calls[..m], i);
      assert calls[i].key != "" && FullKey(calls[i]) == k && Succeeds(s, calls, i);
    }
    if SomeSuccess(s, calls, k) {
      var i :| 0 <= i < |calls| && calls[i].key != "" && FullKey(calls[i]) == k && Succeeds(s, calls, i);
      if i < m {
        assert calls[..m][i].key != "" && FullKey(calls[..m][i]) == k && Succeeds(s, calls[..m], i);
      }
    }
  }

  /** A key is stored exactly when it was there before or some call with it succeeded: failures are not stored. */
  lemma {:induction false} StoredIffSucceeded<S>(s: Server<S>, calls: seq<Call<S>>, k: string)
    ensures k in Serve(s, calls).keys <==> k in s.keys || SomeSuccess(s, calls, k)
  {
    if calls != [] {
      StoredIffSucceeded(s, calls[..|calls| - 1], k);
      SuccessSplits(s, calls, k);
    }
  }

  /**
   * The scope is the route pattern, so one key sent with the same body to two different requests of a route acts only
   * on the first: the second call is answered from the store and its handler never runs.
   */
  lemma OneKeyTwoRequests<S>(s: Server<S>, first: Call<S>, second: Call<S>)
    requires first.key != "" && first.route.Some? && Handles(s, first) && first.handler(s.app).1.Returned?
    requires second.verb == first.verb && second.route == first.route && second.key == first.key
    requires second.payload == first.payload && second.path != first.path
    ensures var s1 := Intercept(s, first).0;
            Intercept(s1, second) == (s1, Answer(Coalesce(first.handler(s.app).1.body), first.handler(s.app).1.status))
  {
    assert FullKey(first) == FullKey(second);
  }

  class IdempotencyInterceptor<S> {
    var app: S
    var keys: map<string, StoredKey>

    constructor (app: S)
      ensures Value() == Server(app, map[])
    {
      this.app, keys := app, map[];
    }

    function Value(): Server<S>
      reads this
    {
      Server(app, keys)
    }

    method InterceptCall(c: Call<S>) returns (r: Reply)
      modifies this
      ensures (Value(), r) == Intercept(old(Value()), c)
    {
      if c.key != "" {
        var fullKey := c.verb + " " + (if c.route.Some? then c.route.value else c.path) + "::" + c.key;
        if fullKey in keys {
          var existing := keys[fullKey];
          if existing.payload != c.payload {
            return Problem(IdempotencyConflict);
          }
          return Answer(existing.response, existing.statusCode);
        }
        var (app', h) := c.handler(app);
        app := app';
        if h.Threw? {
          return Problem(h.error);
        }
        keys := keys[fullKey := StoredKey(c.payload, if h.body.Null? then Json("{}") else h.body, h.status)];
        return Answer(h.body, h.status);
      }
      var (app', h) := c.handler(app);
      app := app';
      r := if h.Threw? then Problem(h.error) else Answer(h.body, h.status);
    }
  }
}
