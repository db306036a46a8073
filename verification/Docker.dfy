/** The docker container and its factory: addresses, what each failure leaves behind, and the loops
    that retry pausing and unpausing. */
module Docker {
  import opened Common
  import opened PauseHandshake

  /** How docker and the container answer while a container is created. `removed` is the answer to
      the removal after a failure. */
  datatype Bringup = Bringup(created: bool, attached: bool, started: bool, responds: bool, removed: bool)

  datatype CreateError = UnknownKind | NoAddress | NotCreated | NotBroughtUp

  /** What becomes of the address. */
  datatype AddressFate = Untouched | Returned | Held

  /** The address stays taken exactly if docker has a container that it did not remove. */
  function FateOf(manifests: set<string>, kind: string, free: nat, b: Bringup): AddressFate {
    if kind !in manifests || free == 0 then Untouched
    else if !b.created then Returned
    else if b.attached && b.started && b.responds then Held
    else if b.removed then Returned
    else Held
  }

  class ContainerFactory {
    const manifests: set<string>
    var usableIPs: seq<string>

    constructor (manifests: set<string>, usableIPs: seq<string>)
      ensures this.manifests == manifests && this.usableIPs == usableIPs
    {
      this.manifests, this.usableIPs := manifests, usableIPs;
    }

    method AcquireIP() returns (ip: Option<string>)
      modifies this
      ensures ip.None? ==> old(usableIPs) == [] && usableIPs == []
      ensures ip.Some? ==> old(usableIPs) == [ip.value] + usableIPs
    {
      if usableIPs == [] {
        return None;
      }
      ip := Some(usableIPs[0]);
      usableIPs := usableIPs[1..];
    }

    method ReleaseIP(ip: string)
      modifies this
      ensures usableIPs == old(usableIPs) + [ip]
    {
      usableIPs := usableIPs + [ip];
    }

    /** `CreateContainer`: a container comes with the first free address; without one, the address is
        either never taken, given back at the end of the list, or lost with what docker holds on to. */
    method CreateContainer(kind: string, b: Bringup) returns (r: Result<Container, CreateError>)
      modifies this
      ensures r.Ok? ==> fresh(r.value) && r.value.factory == this && [r.value.ip] + usableIPs == old(usableIPs)
      ensures r.Ok? <==> kind in manifests && old(usableIPs) != [] && b.created && b.attached && b.started && b.responds
      ensures r == Err(UnknownKind) <==> kind !in manifests
      ensures r == Err(NoAddress) <==> kind in manifests && old(usableIPs) == []
      ensures r == Err(NotCreated) <==> kind in manifests && old(usableIPs) != [] && !b.created
      ensures match FateOf(manifests, kind, |old(usableIPs)|, b)
              case Untouched => usableIPs == old(usableIPs)
              case Returned => usableIPs == old(usableIPs)[1..] + [old(usableIPs)[0]]
              case Held => usableIPs == old(usableIPs)[1..]
      ensures kind !in manifests || old(usableIPs) == [] ==> usableIPs == old(usableIPs)
      ensures kind in manifests && old(usableIPs) != [] ==>
        usableIPs == old(usableIPs)[1..] +
          if !b.created || (!(b.attached && b.started && b.responds) && b.removed) then [old(usableIPs)[0]] else []
    {
      if kind !in manifests {
        return Err(UnknownKind);
      }
      var acquired := AcquireIP();
      if acquired.None? {
        return Err(NoAddress);
      }
      var ipAddress := acquired.value;
      if !b.created {
        ReleaseIP(ipAddress);
        return Err(NotCreated);
      }
      // A partial container already, to be able to remove it on any later failure.
      var container := new Container(ipAddress, this);
      var cleanup := Removal(b.removed, false, true, true);
      if !b.attached || !b.started || !b.responds {
        var _ := container.Remove(cleanup);
        return Err(NotBroughtUp);
      }
      return Ok(container);
    }
  }

  /** How docker and the log streams answer to a removal. */
  datatype Removal = Removal(docker: bool, hasLogs: bool, closes: bool, logsEnd: bool)

  /** How each attempt of one call ends, by its number. */
  type Answers = nat -> Answer

  class Container {
    const ip: string
    const factory: ContainerFactory

    constructor (ip: string, factory: ContainerFactory)
      ensures this.ip == ip && this.factory == factory
    {
      this.ip, this.factory := ip, factory;
    }

    /** `Remove`: the address is free again exactly when docker removed the container, even if
        winding up the logs fails afterwards. */
    method Remove(x: Removal) returns (ok: bool)
      modifies factory
      ensures ok <==> x.docker && (x.hasLogs ==> x.closes && x.logsEnd)
      ensures factory.usableIPs == old(factory.usableIPs) + if x.docker then [ip] else []
    {
      if !x.docker {
        return false;
      }
      factory.ReleaseIP(ip);
      if x.hasLogs {
        if !x.closes {
          return false;
        }
        if !x.logsEnd {
          return false;
        }
      }
      return true;
    }

    /** `Pause` and `Unpause` retry while docker claims the container already is in the wanted state:
        the first other answer decides, and no attempt follows it. */
    method Retry(answers: Answers) returns (ok: bool, attempts: nat)
      ensures ok <==> Decisive(answers, 0).Some? && answers(Decisive(answers, 0).value) == Fine
      ensures attempts == match Decisive(answers, 0) case Some(i) => i + 1 case None => RETRIES + 1
      ensures 1 <= attempts <= 11 && (forall i :: 0 <= i < attempts - 1 ==> answers(i) == ClaimsDone)
      ensures answers(attempts - 1) == ClaimsDone ==> attempts == 11
      ensures ok <==> answers(attempts - 1) == Fine
    {
      var retries := 0;
      while true
        invariant retries <= RETRIES
        invariant Decisive(answers, retries) == Decisive(answers, 0)
        invariant forall i :: 0 <= i < retries ==> answers(i) == ClaimsDone
        decreases RETRIES - retries
      {
        match answers(retries)
        case Fine => return true, retries + 1;
        case Fails => return false, retries + 1;
        case ClaimsDone =>
          if retries == RETRIES {
            return false, retries + 1;
          }
          retries := retries + 1;
      }
    }
  }

  /** The first of the answers to the allowed attempts that is no claim. */
  function Decisive(answers: Answers, from: nat): Option<nat>
    decreases RETRIES + 1 - from
  {
    if from > RETRIES then None
    else if answers(from) != ClaimsDone then Some(from)
    else Decisive(answers, from + 1)
  }
}
