/**
 The concrete builder. It owns exactly one `Computer`, allocated when the
 builder is made; every setter writes one field of that object in place and
 hands back the builder, and `build` hands back that same object every time.
 */
module Builder {
  import opened Computers
  import opened Chains

  class GamingComputerBuilder {
    /** The one object this builder ever writes to or hands out. */
    const computer: Computer

    constructor ()
      ensures fresh(computer)
      ensures computer.Value() == Unset
    {
      computer := new Computer();
    }

    /**
     `setCPU`: overwrites only the CPU field and returns this builder, so calls
     chain. `None` stands for a `null` argument, which unsets the field again.
     */
    method SetCpu(cpu: Option<string>) returns (self: GamingComputerBuilder)
      modifies computer
      ensures self == this
      ensures computer.cpu == cpu
      ensures computer.gpu == old(computer.gpu) && computer.ram == old(computer.ram)
      ensures computer.Value() == old(computer.Value()).Set(Setting(Cpu, cpu))
    {
      computer.cpu := cpu;
      self := this;
    }

    /** `setGPU`: overwrites only the GPU field (`None` unsets it) and returns this builder. */
    method SetGpu(gpu: Option<string>) returns (self: GamingComputerBuilder)
      modifies computer
      ensures self == this
      ensures computer.gpu == gpu
      ensures computer.cpu == old(computer.cpu) && computer.ram == old(computer.ram)
      ensures computer.Value() == old(computer.Value()).Set(Setting(Gpu, gpu))
    {
      computer.gpu := gpu;
      self := this;
    }

    /** `setRAM`: overwrites only the RAM field (`None` unsets it) and returns this builder. */
    method SetRam(ram: Option<string>) returns (self: GamingComputerBuilder)
      modifies computer
      ensures self == this
      ensures computer.ram == ram
      ensures computer.cpu == old(computer.cpu) && computer.gpu == old(computer.gpu)
      ensures computer.Value() == old(computer.Value()).Set(Setting(Ram, ram))
    {
      computer.ram := ram;
      self := this;
    }

    /** `build`: no copy is made; every call returns the object allocated with the builder. */
    method Build() returns (c: Computer)
      ensures c == computer
    {
      c := computer;
    }
  }

  /**
   The chained expression `builder.setCPU(cpu).setGPU(gpu).setRAM(ram).build()`.
   The result is the builder's own object, now holding the three texts, and its
   rendering is "CPU: cpu, GPU: gpu, RAM: ram" whatever the object held before.
   */
  method BuildFull(builder: GamingComputerBuilder, cpu: string, gpu: string, ram: string) returns (c: Computer)
    modifies builder.computer
    ensures c == builder.computer
    ensures c.Value() == ApplyAll(old(builder.computer.Value()), [Setting(Cpu, Some(cpu)), Setting(Gpu, Some(gpu)), Setting(Ram, Some(ram))])
    ensures c.Value() == Config(Some(cpu), Some(gpu), Some(ram))
    ensures c.ToString() == "CPU: " + cpu + ", GPU: " + gpu + ", RAM: " + ram
  {
    ghost var start := builder.computer.Value();
    ghost var calls := [Setting(Cpu, Some(cpu)), Setting(Gpu, Some(gpu)), Setting(Ram, Some(ram))];
    var b1 := builder.SetCpu(Some(cpu));
    var b2 := b1.SetGpu(Some(gpu));
    var b3 := b2.SetRam(Some(ram));
    c := b3.Build();
    assert calls[..2][..1] == calls[..1] && calls[..1][..0] == [];
    assert ApplyAll(start, calls[..1]) == start.Set(calls[0]);
    assert ApplyAll(start, calls[..2]) == start.Set(calls[0]).Set(calls[1]);
  }

  /**
   The same three setter calls as `BuildFull`, made in the order RAM, CPU, GPU
   on the builder's object: the result is the configuration the order CPU,
   GPU, RAM gives, so it renders the same.
   */
  method BuildReordered(builder: GamingComputerBuilder, cpu: Option<string>, gpu: Option<string>, ram: Option<string>)
      returns (c: Computer)
    modifies builder.computer
    ensures c == builder.computer
    ensures c.Value() == ApplyAll(old(builder.computer.Value()), [Setting(Ram, ram), Setting(Cpu, cpu), Setting(Gpu, gpu)])
    ensures c.Value() == ApplyAll(old(builder.computer.Value()), [Setting(Cpu, cpu), Setting(Gpu, gpu), Setting(Ram, ram)])
    ensures c.ToString() == Config(cpu, gpu, ram).Render()
  {
    ghost var start := builder.computer.Value();
    ghost var calls := [Setting(Ram, ram), Setting(Cpu, cpu), Setting(Gpu, gpu)];
    ghost var inOrder := [Setting(Cpu, cpu), Setting(Gpu, gpu), Setting(Ram, ram)];
    var b1 := builder.SetRam(ram);
    var b2 := b1.SetCpu(cpu);
    var b3 := b2.SetGpu(gpu);
    c := b3.Build();
    assert calls[..2][..1] == calls[..1] && calls[..1][..0] == [];
    assert ApplyAll(start, calls[..1]) == start.Set(calls[0]);
    assert ApplyAll(start, calls[..2]) == start.Set(calls[0]).Set(calls[1]);
    assert multiset(calls) == multiset(inOrder);
    PermutationInvariant(start, calls, inOrder);
  }

  /**
   A setter call made after `build` is visible through the reference `build`
   returned earlier: the two builds are the same object.
   */
  method SetAfterBuild(builder: GamingComputerBuilder, cpu: Option<string>) returns (first: Computer, second: Computer)
    modifies builder.computer
    ensures first == second == builder.computer
    ensures first.cpu == cpu
    ensures first.gpu == old(builder.computer.gpu) && first.ram == old(builder.computer.ram)
  {
    first := builder.Build();
    var b := builder.SetCpu(cpu);
    second := b.Build();
  }
}
