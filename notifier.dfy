/**
  The `notifier` package: reports a failure to Honeybadger, retrying delivery
  up to three times. A client built without an API key is unconfigured; for
  it every delivery counts as an immediate success and nothing is posted.

  Posting is an oracle giving the error (None for success) of the i-th post.
  Logging is left out; sleeping is counted, not performed.
*/
module Notifier {
  import opened Common

  /** How many delivery attempts Notify makes at most. */
  const MaxAttempts: nat := 3

  /** A notifier client; it never changes after construction. */
  datatype Client = Client(namespace: string, usingHoneybadger: bool)

  /** A client for the given environment; it posts exactly when an API key is given. */
  function NewClient(namespace: string, apiKey: string): (c: Client)
    ensures c.namespace == namespace
    ensures c.usingHoneybadger <==> apiKey != ""
  {
    Client(namespace, apiKey != "")
  }

  /**
    One delivery attempt: succeeds at once without posting when unconfigured,
    otherwise yields the outcome `post` of the post it makes.
  */
  function NotifyHoneybadger(c: Client, post: Option<string>): (nErr: Option<string>)
    ensures !c.usingHoneybadger ==> nErr == None
    ensures c.usingHoneybadger ==> nErr == post
  {
    if !c.usingHoneybadger then None else post
  }

  /**
    Notify: up to three delivery attempts, sleeping after each failed one.
    Returns None as soon as an attempt succeeds, and the last delivery error
    when all three fail. `tries` counts attempts, `posts` the posts made.
  */
  method Notify(c: Client, msg: string, err: string, post: nat -> Option<string>)
    returns (nErr: Option<string>, tries: nat, posts: nat, sleeps: nat)
    ensures 1 <= tries <= MaxAttempts
    ensures posts == (if c.usingHoneybadger then tries else 0)
    ensures forall i | 0 <= i < tries - 1 :: NotifyHoneybadger(c, post(i)).Some?
    ensures nErr == NotifyHoneybadger(c, post(tries - 1))
    ensures nErr.None? ==> sleeps == tries - 1
    ensures nErr.Some? ==> tries == MaxAttempts && sleeps == MaxAttempts
    ensures !c.usingHoneybadger ==> nErr == None && tries == 1 && posts == 0 && sleeps == 0
  {
    var attempts: nat := 0;
    tries, posts, sleeps := 0, 0, 0;
    nErr := None;
    while attempts < MaxAttempts
      invariant attempts <= MaxAttempts && tries == attempts && sleeps == attempts
      invariant posts == (if c.usingHoneybadger then tries else 0)
      invariant forall i | 0 <= i < attempts :: NotifyHoneybadger(c, post(i)).Some?
      invariant 0 < attempts ==> nErr == NotifyHoneybadger(c, post(attempts - 1))
    {
      nErr := NotifyHoneybadger(c, post(attempts));
      tries := tries + 1;
      if c.usingHoneybadger {
        posts := posts + 1;
      }
      if nErr == None {
        return;
      }
      attempts := attempts + 1;
      sleeps := sleeps + 1;
    }
  }
}
