/**
 The originator/memento pair. A memento holds its own copy of a `Computer`,
 made field by field when it is created; the configurator holds one "current"
 reference, which `setComputer` and `restore` simply re-point.
 */
module Memento {
  import opened Computers

  class ComputerMemento {
    /** The saved copy. The reference never changes; nothing else refers to it until a restore hands it out. */
    const state: Computer

    /** Copies the three fields of `source` into a newly allocated object; `source` itself is only read. */
    constructor (source: Computer)
      ensures fresh(state)
      ensures state.Value() == source.Value()
    {
      var copy := new Computer();
      copy.cpu := source.cpu;
      copy.gpu := source.gpu;
      copy.ram := source.ram;
      state := copy;
    }

    /** `getSavedState`: the saved object itself, not a copy of it. */
    method GetSavedState() returns (c: Computer)
      ensures c == state
    {
      c := state;
    }
  }

  class ComputerConfigurator {
    /** The current computer; `null` until one is set. */
    var current: Computer?

    constructor ()
      ensures current == null
    {
      current := null;
    }

    /** `setComputer`: a plain assignment of the reference, `null` included. */
    method SetComputer(computer: Computer?)
      modifies this
      ensures current == computer
    {
      current := computer;
    }

    /** `getComputer`: the current reference as it is, possibly `null`. */
    method GetComputer() returns (c: Computer?)
      ensures c == current
    {
      c := current;
    }

    /**
     `save`: a memento holding a new object whose fields equal those of the
     current computer. The copy dereferences the current computer, so one must
     be set. Nothing that existed before is changed.
     */
    method Save() returns (m: ComputerMemento)
      requires current != null
      ensures fresh(m) && fresh(m.state)
      ensures m.state.Value() == current.Value()
    {
      m := new ComputerMemento(current);
    }

    /** `restore`: the current reference becomes the memento's own saved object. */
    method Restore(m: ComputerMemento)
      modifies this
      ensures current == m.state
    {
      current := m.GetSavedState();
    }
  }

  /**
   The save / overwrite / restore round trip: save while `x` is current, then
   rewrite every field of `x` and make `y` current; after the restore the
   current computer is a different object from `x` and holds the fields `x`
   had when it was saved.
   */
  method SaveOverwriteRestore(config: ComputerConfigurator, x: Computer, y: Computer?, overwrite: Config)
      returns (m: ComputerMemento)
    requires config.current == x
    modifies config, x
    ensures x.Value() == overwrite
    ensures config.current == m.state && fresh(m.state)
    ensures config.current != x
    ensures config.current.Value() == old(x.Value())
  {
    m := config.Save();
    x.cpu, x.gpu, x.ram := overwrite.cpu, overwrite.gpu, overwrite.ram;
    config.SetComputer(y);
    config.Restore(m);
  }

  /**
   After a restore the current computer and the memento's copy are one object:
   a write through the reference `getComputer` returns also changes what the
   memento would restore next time.
   */
  method RestoreSharesSnapshot(config: ComputerConfigurator, m: ComputerMemento, cpu: string)
    modifies config, m.state
    ensures config.current == m.state
    ensures m.state.cpu == Some(cpu)
    ensures m.state.gpu == old(m.state.gpu) && m.state.ram == old(m.state.ram)
  {
    config.Restore(m);
    var c := config.GetComputer();
    c.cpu := Some(cpu);
  }
}
