/** WaitForCertificateReady: polling a cert-manager Certificate and its Secret against a deadline. */
module CertWait {
  import opened Options

  // Times are in nanoseconds.
  const POLL_SLEEP: nat := 2_000_000_000

  // What a Get of an object answers.
  datatype Answer<+T> = NotFound | CallFailed | Found(obj: T)

  datatype Condition = Condition(typ: string, status: string)

  /** The parts of a Certificate the loop looks at; None where the field is missing or has the
      wrong type. A condition that is not an object is None as well. */
  datatype Certificate = Certificate(conditions: Option<seq<Option<Condition>>>, secretName: Option<string>)

  // A Secret's data; None where an entry is not a string.
  datatype Secret = Secret(data: Option<map<string, Option<string>>>)

  // One round of the loop: the certificate it got, and the secret where it asked for one.
  datatype Poll = Poll(cert: Answer<Certificate>, secret: Option<Lookup>)
  datatype Lookup = Lookup(name: string, answer: Answer<Secret>)

  datatype Outcome = Ready | TimedOut | Failed

  predicate Has(conditions: seq<Option<Condition>>, typ: string) {
    Some(Condition(typ, "True")) in conditions
  }

  /** The certificate's own report is good enough to look at the secret. */
  predicate Reports(c: Certificate) {
    && c.conditions.Some?
    && Has(c.conditions.value, "Ready")
    && !Has(c.conditions.value, "Issuing")
    && c.secretName.Some? && c.secretName.value != ""
  }

  predicate NonEmpty(data: map<string, Option<string>>, key: string) {
    key in data && data[key].Some? && data[key].value != ""
  }

  predicate Holds(s: Secret) {
    s.data.Some? && NonEmpty(s.data.value, "tls.crt") && NonEmpty(s.data.value, "tls.key")
  }

  /** The round saw a finished certificate with a filled secret. */
  predicate Good(p: Poll) {
    && p.cert.Found? && Reports(p.cert.obj)
    && p.secret.Some? && p.secret.value.name == p.cert.obj.secretName.value
    && p.secret.value.answer.Found? && Holds(p.secret.value.answer.obj)
  }

  /** A call of the round failed with something else than NotFound. */
  predicate Broken(p: Poll) {
    p.cert.CallFailed? || (p.secret.Some? && p.secret.value.answer.CallFailed?)
  }

  /** The cluster and the clock. The answers to the n-th Get of the certificate, and to a Get of a secret that follows
      it, are arbitrary; every call takes some time. */
  class World {
    const certs: nat -> Answer<Certificate>
    const secrets: (nat, string) -> Answer<Secret>
    var gets: nat
    var now: int

    constructor (certs: nat -> Answer<Certificate>, secrets: (nat, string) -> Answer<Secret>)
      ensures this.certs == certs && this.secrets == secrets && gets == 0
    {
      this.certs, this.secrets, gets := certs, secrets, 0;
      now := *;
    }

    method Sleep(d: nat)
      modifies this`now
      ensures now >= old(now) + d
    {
      var late :| late >= 0;
      now := now + d + late;
    }

    method GetCertificate() returns (r: Answer<Certificate>)
      modifies this
      ensures now >= old(now) && gets == old(gets) + 1 && r == certs(old(gets))
    {
      Sleep(0);
      r := certs(gets);
      gets := gets + 1;
    }

    method GetSecret(name: string) returns (r: Answer<Secret>)
      requires gets > 0
      modifies this`now
      ensures now >= old(now) && r == secrets(gets - 1, name)
    {
      Sleep(0);
      r := secrets(gets - 1, name);
    }
  }

  /** The n-th round as the cluster answers it: the secret is asked for exactly where the certificate reports well. */
  predicate Asked(w: World, n: nat, p: Poll) {
    && p.cert == w.certs(n)
    && p.secret == if p.cert.Found? && Reports(p.cert.obj)
                   then Some(Lookup(p.cert.obj.secretName.value, w.secrets(n, p.cert.obj.secretName.value)))
                   else None
  }

  method CheckConditions(conditions: seq<Option<Condition>>) returns (ready: bool, issuing: bool)
    ensures ready <==> Has(conditions, "Ready")
    ensures issuing <==> Has(conditions, "Issuing")
  {
    ready, issuing := false, false;
    for i := 0 to |conditions|
      invariant ready <==> Has(conditions[..i], "Ready")
      invariant issuing <==> Has(conditions[..i], "Issuing")
    {
      if conditions[i].Some? {
        var c := conditions[i].value;
        if c.typ == "Ready" {
          if c.status == "True" { ready := true; }
        } else if c.typ == "Issuing" {
          if c.status == "True" { issuing := true; }
        }
      }
    }
    assert conditions[..|conditions|] == conditions;
  }

  /** The number of rounds a timeout leaves room for. */
  function MaxPolls(timeout: int): nat {
    if timeout < 0 then 0 else timeout / POLL_SLEEP + 1
  }

  /** Always ends, within MaxPolls rounds. It reports success exactly for a last round that is
      good, failure exactly for a last round that is broken, and gives up otherwise; no earlier
      round was either. */
  method WaitForCertificateReady(w: World, timeout: int) returns (r: Outcome, polls: seq<Poll>)
    modifies w
    ensures |polls| <= MaxPolls(timeout)
    ensures r == Ready <==> polls != [] && Good(polls[|polls| - 1])
    ensures r == Failed <==> polls != [] && Broken(polls[|polls| - 1])
    ensures forall i :: 0 <= i < |polls| - 1 ==> !Good(polls[i]) && !Broken(polls[i])
    ensures r == TimedOut ==> w.now > old(w.now) + timeout
    ensures w.gets == old(w.gets) + |polls|
    ensures forall i :: 0 <= i < |polls| ==> Asked(w, old(w.gets) + i, polls[i])
    ensures r == Ready ==>
      && w.gets > 0 && w.certs(w.gets - 1).Found?
      && var cert := w.certs(w.gets - 1).obj;
         && cert.conditions.Some?
         && Some(Condition("Ready", "True")) in cert.conditions.value
         && Some(Condition("Issuing", "True")) !in cert.conditions.value
         && cert.secretName.Some? && cert.secretName.value != ""
         && var secret := w.secrets(w.gets - 1, cert.secretName.value);
            && secret.Found? && secret.obj.data.Some?
            && var data := secret.obj.data.value;
               && "tls.crt" in data && data["tls.crt"].Some? && data["tls.crt"].value != ""
               && "tls.key" in data && data["tls.key"].Some? && data["tls.key"].value != ""
  {
    var start := w.now;
    var deadline := start + timeout;
    polls := [];
    while true
      invariant w.now >= start + POLL_SLEEP * |polls|
      invariant forall i :: 0 <= i < |polls| ==> !Good(polls[i]) && !Broken(polls[i])
      invariant |polls| <= MaxPolls(timeout)
      invariant w.gets == old(w.gets) + |polls|
      invariant forall i :: 0 <= i < |polls| ==> Asked(w, old(w.gets) + i, polls[i])
      decreases deadline - w.now
    {
      if w.now > deadline {
        return TimedOut, polls;
      }
      assert POLL_SLEEP * |polls| <= timeout;
      var cert := w.GetCertificate();
      if cert != NotFound {
        if cert == CallFailed {
          return Failed, polls + [Poll(cert, None)];
        }
        if cert.obj.conditions.Some? {
          var ready, issuing := CheckConditions(cert.obj.conditions.value);
          var name := cert.obj.secretName;
          if !issuing && ready && name.Some? && name.value != "" {
            var secret := w.GetSecret(name.value);
            polls := polls + [Poll(cert, Some(Lookup(name.value, secret)))];
            if secret == CallFailed {
              return Failed, polls;
            }
            if secret.Found? && secret.obj.data.Some? {
              var data := secret.obj.data.value;
              if "tls.crt" in data && "tls.key" in data {
                var crt, key := data["tls.crt"], data["tls.key"];
                if crt.Some? && key.Some? && crt.value != "" && key.value != "" {
                  return Ready, polls;
                }
              }
            }
            w.Sleep(POLL_SLEEP);
            continue;
          }
        }
      }
      polls := polls + [Poll(cert, None)];
      w.Sleep(POLL_SLEEP);
    }
  }
}
