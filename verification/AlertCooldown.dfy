/** The production monitor's cooldown: an alert is sent at most once in five minutes under its key. */
module AlertCooldown {

  const COOLDOWN := 300.0
  const KEY_LENGTH := 50

  datatype Attempt = Attempt(message: string, now: real)

  function KeyOf(message: string): string {
    if |message| <= KEY_LENGTH then message else message[..KEY_LENGTH]
  }

  predicate CoolingDown(last: map<string, real>, a: Attempt) {
    KeyOf(a.message) in last && a.now - last[KeyOf(a.message)] < COOLDOWN
  }

  function After(last: map<string, real>, a: Attempt): map<string, real> {
    if CoolingDown(last, a) then last else last[KeyOf(a.message) := a.now]
  }

  class ProductionMonitor {
    var lastAlertTime: map<string, real>

    method SendAlert(a: Attempt) returns (sent: bool)
      modifies this
      ensures lastAlertTime == After(old(lastAlertTime), a) && sent == !CoolingDown(old(lastAlertTime), a)
      ensures var key := if |a.message| < 50 then a.message else a.message[..50];
              && (sent <==> key !in old(lastAlertTime) || a.now - old(lastAlertTime)[key] >= 300.0)
              && lastAlertTime == if sent then old(lastAlertTime)[key := a.now] else old(lastAlertTime)
    {
      var key := KeyOf(a.message);
      assert |a.message| == 50 ==> a.message[..50] == a.message;
      if key in lastAlertTime {
        if a.now - lastAlertTime[key] < COOLDOWN {
          return false;
        }
      }
      lastAlertTime := lastAlertTime[key := a.now];
      sent := true;
    }
  }

  /** The times at which a key's alerts go out. */
  function Sends(last: map<string, real>, attempts: seq<Attempt>, key: string): seq<real>
    decreases |attempts|
  {
    if attempts == [] then [] else
      var a := attempts[0];
      (if KeyOf(a.message) == key && !CoolingDown(last, a) then [a.now] else [])
      + Sends(After(last, a), attempts[1..], key)
  }

  /** Each send comes at least the cooldown after the one before it. */
  predicate Spaced(times: seq<real>) {
    forall i :: 0 <= i < |times| - 1 ==> times[i + 1] - times[i] >= COOLDOWN
  }

  lemma {:induction false} SendsAreSpaced(last: map<string, real>, attempts: seq<Attempt>, key: string)
    ensures Spaced(Sends(last, attempts, key))
    ensures key in last && Sends(last, attempts, key) != [] ==> Sends(last, attempts, key)[0] - last[key] >= COOLDOWN
    decreases |attempts|
  {
    if attempts != [] {
      SendsAreSpaced(After(last, attempts[0]), attempts[1..], key);
    }
  }

  lemma {:induction false} SpacedApart(times: seq<real>, i: nat, j: nat)
    requires Spaced(times) && i <= j < |times|
    ensures times[j] - times[i] >= (j - i) as real * COOLDOWN
    decreases j
  {
    if i < j {
      SpacedApart(times, i, j - 1);
      assert times[j - 1 + 1] - times[j - 1] >= COOLDOWN;
    }
  }

  /**
   Whatever is attempted, and when: sends within a window of some length number at most the length over the
   cooldown, plus one.
   */
  lemma FewSendsInWindow(attempts: seq<Attempt>, key: string, i: nat, j: nat, length: real)
    requires i <= j < |Sends(map[], attempts, key)|
    requires Sends(map[], attempts, key)[j] - Sends(map[], attempts, key)[i] <= length
    ensures (j - i) as real * COOLDOWN <= length
  {
    SendsAreSpaced(map[], attempts, key);
    SpacedApart(Sends(map[], attempts, key), i, j);
  }

  // ---------- Nothing is kept back without a reason ----------

  function LastAfter(attempts: seq<Attempt>): map<string, real> {
    if attempts == [] then map[] else After(LastAfter(attempts[..|attempts| - 1]), attempts[|attempts| - 1])
  }

  /** The i-th attempt goes out. */
  predicate GoesOut(attempts: seq<Attempt>, i: nat)
    requires i < |attempts|
  {
    !CoolingDown(LastAfter(attempts[..i]), attempts[i])
  }

  /** The recorded time of a key is that of an attempt that went out under it. */
  lemma {:induction false} RecordedWentOut(attempts: seq<Attempt>, key: string) returns (j: nat)
    requires key in LastAfter(attempts)
    ensures j < |attempts| && GoesOut(attempts, j)
    ensures KeyOf(attempts[j].message) == key && attempts[j].now == LastAfter(attempts)[key]
  {
    var n := |attempts| - 1;
    var init := attempts[..n];
    if !CoolingDown(LastAfter(init), attempts[n]) && KeyOf(attempts[n].message) == key {
      j := n;
    } else {
      j := RecordedWentOut(init, key);
      assert attempts[..j] == init[..j];
    }
  }

  /** An attempt is kept back only when one that agrees with it in the first 50 characters went out within 300 seconds. */
  lemma KeptBackAfterSend(attempts: seq<Attempt>, i: nat) returns (j: nat)
    requires i < |attempts| && !GoesOut(attempts, i)
    ensures j < i && GoesOut(attempts, j) && attempts[i].now - attempts[j].now < 300.0
    ensures KeyOf(attempts[j].message) == KeyOf(attempts[i].message)
  {
    var before := attempts[..i];
    j := RecordedWentOut(before, KeyOf(attempts[i].message));
    assert attempts[..j] == before[..j];
  }
}
