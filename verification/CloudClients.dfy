/** Building the cloud client for the cluster's platform: every failure on the way is a panic. */
module CloudClients {
  import opened Basics

  const AWS := "AWS"
  const GCP := "GCP"

  predicate Registered(platform: string) {
    platform == AWS || platform == GCP
  }

  /**
   * AWS reads the infrastructure and the credentials; GCP the credentials, the infrastructure, the
   * master machines, and the infrastructure twice more.
   */
  function BuildCalls(platform: string): nat {
    if platform == AWS then 2 else 5
  }

  datatype Calls = Calls(ok: bool, faults: seq<bool>)

  /** Makes up to `k` calls and stops after the first that fails. */
  function Make(faults: seq<bool>, k: nat): Calls
    decreases k
  {
    if k == 0 then Calls(true, faults)
    else if CallFails(faults) then Calls(false, LaterCalls(faults))
    else Make(LaterCalls(faults), k - 1)
  }

  /** `GetClientFor`; it panics unless `ok`. `usable`: what the calls read lets a client be made. */
  function GetClientFor(platform: string, usable: bool, faults: seq<bool>): Calls {
    if !Registered(platform) then Calls(false, faults)
    else
      var made := Make(faults, BuildCalls(platform));
      Calls(made.ok && usable, made.faults)
  }

  method Call(faults: seq<bool>) returns (ok: bool, later: seq<bool>)
    ensures ok == !CallFails(faults) && later == LaterCalls(faults)
  {
    ok, later := !CallFails(faults), LaterCalls(faults);
  }

  /** The registered factories, call by call. */
  method BuildFor(platform: string, usable: bool, faults: seq<bool>) returns (ok: bool, later: seq<bool>)
    ensures Calls(ok, later) == GetClientFor(platform, usable, faults)
  {
    ok, later := false, faults;
    if platform == AWS {
      ok, later := BuildAws(faults);
    } else if platform == GCP {
      ok, later := BuildGcp(faults);
    }
    ok := ok && usable;
  }

  method BuildAws(faults: seq<bool>) returns (ok: bool, later: seq<bool>)
    ensures Calls(ok, later) == Make(faults, 2)
  {
    var infrastructure, credentials;
    infrastructure, later := Call(faults);
    if !infrastructure {
      return false, later;
    }
    credentials, later := Call(later);
    return credentials, later;
  }

  method BuildGcp(faults: seq<bool>) returns (ok: bool, later: seq<bool>)
    ensures Calls(ok, later) == Make(faults, 5)
  {
    var credentials, region, machines, name, domain;
    credentials, later := Call(faults);
    if !credentials {
      return false, later;
    }
    region, later := Call(later);
    if !region {
      return false, later;
    }
    machines, later := Call(later);
    if !machines {
      return false, later;
    }
    name, later := Call(later);
    if !name {
      return false, later;
    }
    domain, later := Call(later);
    return domain, later;
  }

  lemma {:induction false} MakeSucceedsIff(faults: seq<bool>, k: nat)
    ensures Make(faults, k).ok <==> AllSucceed(faults, k)
    ensures AllSucceed(faults, k) ==> Make(faults, k).faults == AfterCalls(faults, k)
    decreases k
  {
    if k > 0 { MakeSucceedsIff(LaterCalls(faults), k - 1); }
  }

  /** A client is built exactly for a registered platform whose calls all succeed and can be used. */
  lemma ClientIff(platform: string, usable: bool, faults: seq<bool>)
    ensures GetClientFor(platform, usable, faults).ok
            <==> && usable
                 && (platform == "AWS" || platform == "GCP")
                 && AllSucceed(faults, if platform == "AWS" then 2 else 5)
  {
    MakeSucceedsIff(faults, BuildCalls(platform));
  }
}
