/**
 * Process startup: create the tables, retrying with exponential backoff,
 * then either serve on the configured address or exit with status 1.
 *
 * Whether the database accepts the i-th attempt (counting from 0) is the
 * input `connects(i)`; the seconds slept between attempts are recorded in
 * order instead of being slept.
 */
module Startup {
  import opened Wrappers

  const MaxRetries: nat := 5
  const InitialDelay: nat := 2
  const DefaultHost: string := "0.0.0.0"
  const DefaultPort: int := 5000

  function Pow2(n: nat): nat {
    if n == 0 then 1 else 2 * Pow2(n - 1)
  }

  /** The delays slept after the first `n` failed attempts. */
  function Backoff(n: nat): (r: seq<nat>)
    ensures |r| == n
  {
    if n == 0 then [] else Backoff(n - 1) + [InitialDelay * Pow2(n - 1)]
  }

  /** Total time slept. */
  function Total(s: seq<nat>): nat {
    if s == [] then 0 else Total(s[..|s| - 1]) + s[|s| - 1]
  }

  /** The k-th delay is 2 * 2^k: it starts at 2 and doubles after each failure. */
  lemma {:induction false} BackoffDoubles(n: nat)
    ensures forall k :: 0 <= k < n ==> Backoff(n)[k] == InitialDelay * Pow2(k)
    ensures n > 0 ==> Backoff(n)[0] == InitialDelay
    ensures forall k :: 0 < k < n ==> Backoff(n)[k] == 2 * Backoff(n)[k - 1]
  {
    if n > 0 {
      BackoffDoubles(n - 1);
      assert Backoff(n) == Backoff(n - 1) + [InitialDelay * Pow2(n - 1)];
    }
  }

  /** After `n` sleeps the total slept is 2 * (2^n - 1). */
  lemma {:induction false} BackoffTotal(n: nat)
    ensures Total(Backoff(n)) == InitialDelay * (Pow2(n) - 1)
  {
    if n > 0 {
      BackoffTotal(n - 1);
      assert Backoff(n)[..n - 1] == Backoff(n - 1);
    }
  }

  /** With every attempt failing the sleeps are 2, 4, 8, 16: thirty in all. */
  lemma AllFailSchedule()
    ensures Backoff(MaxRetries - 1) == [2, 4, 8, 16]
    ensures Total(Backoff(MaxRetries - 1)) == 30
  {
    BackoffTotal(MaxRetries - 1);
  }

  /**
   * `create_tables`: at most five attempts, stopping at the first that
   * connects; after each failed attempt but the last, sleep and double the
   * delay. `attempts` is how many attempts were made.
   */
  method CreateTables(connects: nat -> bool) returns (created: bool, attempts: nat, delays: seq<nat>)
    ensures 1 <= attempts <= MaxRetries
    ensures forall i :: 0 <= i < attempts - 1 ==> !connects(i)
    ensures created <==> connects(attempts - 1)
    ensures created <==> exists i :: 0 <= i < MaxRetries && connects(i)
    ensures !created ==> attempts == MaxRetries
    ensures delays == Backoff(attempts - 1)
  {
    var retryDelay: nat := InitialDelay;
    created, attempts, delays := false, 0, [];
    for attempt := 0 to MaxRetries
      invariant attempts == attempt
      invariant forall i :: 0 <= i < attempt ==> !connects(i)
      invariant delays == Backoff(if attempt < MaxRetries then attempt else MaxRetries - 1)
      invariant retryDelay == InitialDelay * Pow2(|delays|)
    {
      attempts := attempt + 1;
      if connects(attempt) {
        created := true;
        return;
      }
      if attempt < MaxRetries - 1 {
        delays := delays + [retryDelay];
        retryDelay := retryDelay * 2;
      }
    }
  }

  /** What the process does once `create_tables` has returned. */
  datatype Launch = Serve(host: string, port: int) | Exit(status: int)

  /**
   * The `__main__` block. `hostEnv` and `portEnv` are the values of
   * FLASK_HOST and FLASK_PORT, `None` when unset.
   */
  method Start(connects: nat -> bool, hostEnv: Option<string>, portEnv: Option<int>) returns (launch: Launch)
    ensures launch.Exit? <==> forall i :: 0 <= i < MaxRetries ==> !connects(i)
    ensures launch.Exit? ==> launch.status == 1
    ensures launch.Serve? ==> launch.host == hostEnv.GetOr(DefaultHost) && launch.port == portEnv.GetOr(DefaultPort)
  {
    var created, _, _ := CreateTables(connects);
    if created {
      launch := Serve(hostEnv.GetOr(DefaultHost), portEnv.GetOr(DefaultPort));
    } else {
      launch := Exit(1);
    }
  }
}
