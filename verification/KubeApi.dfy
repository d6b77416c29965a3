/**
 * The Kubernetes API as this operator sees it: IngressControllers by name, and for each future call
 * whether it fails. A failed call has no effect; past the end of `faults` every call succeeds.
 */
module KubeApi {
  import opened Basics
  import CloudClients
  import opened IngressControllers

  datatype World = World(ics: map<string, IngressController>, faults: seq<bool>) {
    predicate Fails() { CallFails(faults) }

    function Next(): World { this.(faults := LaterCalls(faults)) }
  }

  datatype Reply = Found(ic: IngressController) | Missing | Unavailable
  datatype Ack = Acked | NotFound | Rejected

  function GetReply(w: World, name: string): Reply {
    if w.Fails() then Unavailable else if name in w.ics then Found(w.ics[name]) else Missing
  }

  function CreateAck(w: World, name: string): Ack {
    if w.Fails() || name in w.ics then Rejected else Acked
  }

  function AfterCreate(w: World, name: string, ic: IngressController): World {
    if CreateAck(w, name) == Acked then w.Next().(ics := w.ics[name := ic]) else w.Next()
  }

  /** Whether a call that names an existing object finds it. */
  function WriteAck(w: World, name: string): Ack {
    if w.Fails() then Rejected else if name in w.ics then Acked else NotFound
  }

  /** Delete removes an object without finalizers and only marks any other. */
  function AfterDelete(w: World, name: string): World {
    if WriteAck(w, name) != Acked then w.Next()
    else if w.ics[name].finalizers == [] then w.Next().(ics := w.ics - {name})
    else w.Next().(ics := w.ics[name := w.ics[name].(deleting := true)])
  }

  /** Update and Patch: a deleting object that loses its last finalizer is removed. */
  function AfterStore(w: World, name: string, ic: IngressController): World {
    if WriteAck(w, name) != Acked then w.Next()
    else if ic.deleting && ic.finalizers == [] then w.Next().(ics := w.ics - {name})
    else w.Next().(ics := w.ics[name := ic])
  }

  class Api {
    var ics: map<string, IngressController>
    var faults: seq<bool>

    function View(): World
      reads this
    {
      World(ics, faults)
    }

    constructor (ics: map<string, IngressController>, faults: seq<bool>)
      ensures View() == World(ics, faults)
    {
      this.ics, this.faults := ics, faults;
    }

    /** Any call that only reads: it either answers or fails. */
    method Call() returns (ok: bool)
      modifies this
      ensures ok == !old(View()).Fails() && View() == old(View()).Next()
    {
      ok := !CallFails(faults);
      faults := LaterCalls(faults);
    }

    /** The calls that build a cloud client. */
    method GetClientFor(platform: string, usable: bool) returns (built: bool)
      modifies this
      ensures var client := CloudClients.GetClientFor(platform, usable, old(faults));
              built == client.ok && View() == old(View()).(faults := client.faults)
    {
      built, faults := CloudClients.BuildFor(platform, usable, faults);
    }

    method Get(name: string) returns (reply: Reply)
      modifies this
      ensures reply == GetReply(old(View()), name) && View() == old(View()).Next()
    {
      var ok := Call();
      reply := if !ok then Unavailable else if name in ics then Found(ics[name]) else Missing;
    }

    method Create(name: string, ic: IngressController) returns (ack: Ack)
      modifies this
      ensures ack == CreateAck(old(View()), name) && View() == AfterCreate(old(View()), name, ic)
    {
      var ok := Call();
      ack := Rejected;
      if ok && name !in ics {
        ics := ics[name := ic];
        ack := Acked;
      }
    }

    method Delete(name: string) returns (ack: Ack)
      modifies this
      ensures ack == WriteAck(old(View()), name) && View() == AfterDelete(old(View()), name)
    {
      var ok := Call();
      ack := if !ok then Rejected else if name in ics then Acked else NotFound;
      if ack == Acked {
        if ics[name].finalizers == [] {
          ics := ics - {name};
        } else {
          ics := ics[name := ics[name].(deleting := true)];
        }
      }
    }

    method Store(name: string, ic: IngressController) returns (ack: Ack)
      modifies this
      ensures ack == WriteAck(old(View()), name) && View() == AfterStore(old(View()), name, ic)
    {
      var ok := Call();
      ack := if !ok then Rejected else if name in ics then Acked else NotFound;
      if ack == Acked {
        if ic.deleting && ic.finalizers == [] {
          ics := ics - {name};
        } else {
          ics := ics[name := ic];
        }
      }
    }
  }
}
