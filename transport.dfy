/**
 * The nng calls the PluQ core issues, as an abstract log.
 *
 * The socket library is not modelled. Each process records, in order, every
 * setup and teardown call it makes; the outcome of each setup call is supplied
 * by the caller of the operation that makes it. A setup sequence stops at the
 * first call that fails, so which calls are issued is determined by the
 * outcomes alone: `Attempts` says how many.
 */
module Transport {

  /** The six nng socket protocols in use: the backend's replier, publisher and
      puller, and the frontend's requester, subscriber and pusher. */
  datatype Protocol = Rep0 | Pub0 | Pull0 | Req0 | Sub0 | Push0

  datatype NngCall =
    | SocketOpen(protocol: Protocol)
    | ListenerCreate(url: string)
    | ListenerStart(url: string)
    | DialerCreate(url: string)
    | DialerStart(url: string)
    | Subscribe(topic: string)
    | SocketClose(protocol: Protocol)

  ghost predicate AllOk(outcomes: seq<bool>) {
    forall i :: 0 <= i < |outcomes| ==> outcomes[i]
  }

  /** How many calls of a setup sequence are issued when the i-th call reports
      `outcomes[i]`: all of them if every one succeeds, otherwise up to and
      including the first failure. */
  function Attempts(outcomes: seq<bool>): (n: nat)
    ensures n <= |outcomes|
    ensures AllOk(outcomes) ==> n == |outcomes|
    ensures !AllOk(outcomes) ==> 0 < n && !outcomes[n - 1] && AllOk(outcomes[..n - 1])
  {
    if outcomes == [] then 0
    else if !outcomes[0] then 1
    else
      var rest := Attempts(outcomes[1..]);
      assert AllOk(outcomes[1..]) ==> AllOk(outcomes) by {
        if AllOk(outcomes[1..]) {
          forall i | 0 <= i < |outcomes| ensures outcomes[i] {
            if i > 0 { assert outcomes[i] == outcomes[1..][i - 1]; }
          }
        }
      }
      assert !AllOk(outcomes[1..]) ==> outcomes[..rest + 1] == [outcomes[0]] + outcomes[1..][..rest];
      1 + rest
  }

  /** Running two setup sequences back to back: the second starts only when the
      first succeeded entirely. */
  lemma {:induction false} AttemptsAppend(a: seq<bool>, b: seq<bool>)
    ensures Attempts(a + b) == if AllOk(a) then |a| + Attempts(b) else Attempts(a)
    ensures AllOk(a + b) <==> AllOk(a) && AllOk(b)
  {
    if AllOk(a) && AllOk(b) {
      forall i | 0 <= i < |a + b| ensures (a + b)[i] {
        if i < |a| { assert (a + b)[i] == a[i]; } else { assert (a + b)[i] == b[i - |a|]; }
      }
    }
    if !AllOk(a) {
      var i :| 0 <= i < |a| && !a[i];
      assert (a + b)[i] == a[i];
    } else if !AllOk(b) {
      var i :| 0 <= i < |b| && !b[i];
      assert (a + b)[|a| + i] == b[i];
    }
    if a == [] {
      assert a + b == b;
    } else {
      assert (a + b)[0] == a[0];
      assert (a + b)[1..] == a[1..] + b;
      AttemptsAppend(a[1..], b);
      if a[0] {
        assert AllOk(a) <==> AllOk(a[1..]) by {
          if AllOk(a[1..]) {
            forall i | 0 <= i < |a| ensures a[i] {
              if i > 0 { assert a[i] == a[1..][i - 1]; }
            }
          }
        }
      }
    }
  }

  /** The calls issued by two setup sequences run back to back. */
  lemma SetupPrefix(s1: seq<NngCall>, o1: seq<bool>, s2: seq<NngCall>, o2: seq<bool>)
    requires |s1| == |o1| && |s2| == |o2|
    ensures (s1 + s2)[..Attempts(o1 + o2)]
         == if AllOk(o1) then s1 + s2[..Attempts(o2)] else s1[..Attempts(o1)]
    ensures AllOk(o1 + o2) <==> AllOk(o1) && AllOk(o2)
  {
    AttemptsAppend(o1, o2);
    var n := Attempts(o1 + o2);
    if AllOk(o1) {
      var k := Attempts(o2);
      assert n == |s1| + k;
      assert (s1 + s2)[..n] == s1 + s2[..k];
    } else {
      assert n == Attempts(o1) <= |s1|;
      assert (s1 + s2)[..n] == s1[..n];
    }
  }

  /** The calls issued by three setup sequences run back to back, case by case:
      each sequence starts only when every earlier one succeeded entirely. */
  lemma SetupPrefix3(s1: seq<NngCall>, o1: seq<bool>, s2: seq<NngCall>, o2: seq<bool>,
                     s3: seq<NngCall>, o3: seq<bool>)
    requires |s1| == |o1| && |s2| == |o2| && |s3| == |o3|
    ensures AllOk(o1 + o2 + o3) <==> AllOk(o1) && AllOk(o2) && AllOk(o3)
    ensures !AllOk(o1) ==> (s1 + s2 + s3)[..Attempts(o1 + o2 + o3)] == s1[..Attempts(o1)]
    ensures AllOk(o1) && !AllOk(o2) ==> (s1 + s2 + s3)[..Attempts(o1 + o2 + o3)] == s1 + s2[..Attempts(o2)]
    ensures AllOk(o1) && AllOk(o2) ==> (s1 + s2 + s3)[..Attempts(o1 + o2 + o3)] == s1 + s2 + s3[..Attempts(o3)]
  {
    assert s1 + s2 + s3 == s1 + (s2 + s3);
    assert o1 + o2 + o3 == o1 + (o2 + o3);
    SetupPrefix(s1, o1, s2 + s3, o2 + o3);
    SetupPrefix(s2, o2, s3, o3);
    if AllOk(o1) && AllOk(o2) {
      assert s1 + (s2 + s3[..Attempts(o3)]) == s1 + s2 + s3[..Attempts(o3)];
    }
  }
}
