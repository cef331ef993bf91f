# Computer configuration demo: Builder, Memento and Bridge

A model of `Lab3/src/App.java`, a small demonstration of three object-oriented
design patterns around a `Computer` made of three text fields (CPU, GPU, RAM):

- **Builder** (`builder.dfy`): `GamingComputerBuilder` owns one `Computer`,
  allocated with the builder. `setCPU`, `setGPU` and `setRAM` each overwrite one
  field of that object in place and return the builder itself. `build` returns
  that same object every time, so two builds from one builder are one object.
- **Memento** (`memento.dfy`): `ComputerMemento` copies the three fields of a
  computer into a newly allocated one. `ComputerConfigurator` holds a single
  "current" reference. `setComputer` and `restore` simply re-point it, and
  `save` makes a memento of the current computer.
- **Bridge** (`bridge.dfy`): a `PC` platform is bound to one operating system
  and forwards `setup` to that system's `installDrivers`, which prints one line.
- **The value and its rendering** (`computer.dfy`): `Config` is the contents of
  a `Computer` at one moment. Its rendering is `toString`:
  `"CPU: <cpu>, GPU: <gpu>, RAM: <ram>"`, where an unset field reads `null`.
  `chains.dfy` treats a sequence of setter calls as a value, to state which
  text each field ends up with and why the order of calls does not matter.
- **The program** (`app.dfy`): `main`'s fixed sequence, with the four lines it
  prints returned in order.

Heap objects are Dafny classes. Every method that changes state says what it
may change (`modifies`) and what the new state is. The aliasing of the code is
stated outright:

- `build` returns the builder's own object.
- A memento's copy is `fresh`, so a later write to the computer it was taken
  from cannot reach it.
- `restore` makes the memento's own object current; it does not copy it.

Where the intended design of the patterns and the code differ, the model follows the code:
- `build` returns the same object every time; it does not build an independent value.
- `save` dereferences the current computer and has no guard of its own for a missing one.
- After `restore`, the current computer is the memento's stored object itself.
  A write through `getComputer` therefore also changes what the memento restores
  next time (`Memento.RestoreSharesSnapshot`).

## Model

| member | source | states |
|---|---|---|
| Computers.Computer.constructor | Lab3/src/App.java:31-34 | a new `Computer` has all three fields unset |
| Computers.Config.Set | Lab3/src/App.java:55-70 | one setter call gives its part the argument (a null argument unsets it) and keeps the other two parts |
| Computers.Computer.ToString | Lab3/src/App.java:37-39 | the rendering of the object's current contents, the Render of Value() |
| Computers.RenderLayout | Lab3/src/App.java:37-39 | the rendering is "CPU: ", the CPU text, ", GPU: ", the GPU text, ", RAM: ", the RAM text, at exactly those positions and with that total length |
| Computers.RenderDeterminesFields | Lab3/src/App.java:37-39 | if the CPU and GPU texts contain no comma, two renderings are equal if and only if all three field texts are equal |
| Chains.LastWriteWins | Lab3/src/App.java:55-70 | after a chain of setter calls, a part no call names keeps its value, and a named part holds the argument of the last call that names it |
| Chains.PermutationInvariant | Lab3/src/App.java:55-70 | any reordering of the same setter calls, each part set at most once in one of the orders, gives the same configuration and the same rendering |
| Builder.GamingComputerBuilder.constructor | Lab3/src/App.java:51-52 | the builder owns a newly allocated computer with nothing set |
| Builder.GamingComputerBuilder.SetCpu | Lab3/src/App.java:55-58 | only the CPU field of the builder's computer changes, to the given argument (null unsets it); GPU and RAM are kept; the builder itself is returned |
| Builder.GamingComputerBuilder.SetGpu | Lab3/src/App.java:61-64 | only the GPU field changes, to the given argument (null unsets it); CPU and RAM are kept; the builder itself is returned |
| Builder.GamingComputerBuilder.SetRam | Lab3/src/App.java:67-70 | only the RAM field changes, to the given argument (null unsets it); CPU and GPU are kept; the builder itself is returned |
| Builder.GamingComputerBuilder.Build | Lab3/src/App.java:73-75 | the result is the builder's own computer, the same reference on every call, and nothing changes |
| Builder.BuildFull | Lab3/src/App.java:7 | the chain setCPU, setGPU, setRAM, build returns the builder's computer holding exactly the three texts, equal to applying the three calls in order, and it renders as "CPU: cpu, GPU: gpu, RAM: ram" |
| Builder.BuildReordered | Lab3/src/App.java:55-75 | the calls setRAM, setCPU, setGPU, build on the builder's object give the same configuration as the order setCPU, setGPU, setRAM, and its rendering |
| Builder.SetAfterBuild | Lab3/src/App.java:73-75 | a build, a setter call and a second build: both builds are the same object, and the setter's change is visible through the first result |
| Memento.ComputerMemento.constructor | Lab3/src/App.java:127-133 | the saved state is a newly allocated computer whose fields equal the argument's |
| Memento.ComputerMemento.GetSavedState | Lab3/src/App.java:135-137 | returns the saved object itself and changes nothing |
| Memento.ComputerConfigurator.constructor | Lab3/src/App.java:141-142 | a new configurator has no current computer |
| Memento.ComputerConfigurator.SetComputer | Lab3/src/App.java:144-146 | the current reference becomes the argument, which may be null; nothing else changes |
| Memento.ComputerConfigurator.GetComputer | Lab3/src/App.java:148-150 | returns the current reference, possibly null, and changes nothing |
| Memento.ComputerConfigurator.Save | Lab3/src/App.java:152-154 | with a current computer, returns a new memento whose saved object is new and holds the current computer's fields; nothing existing changes |
| Memento.ComputerConfigurator.Restore | Lab3/src/App.java:156-158 | the current reference becomes the memento's saved object itself |
| Memento.SaveOverwriteRestore | Lab3/src/App.java:10-22 | save, rewrite every field of the saved computer, make another computer current, then restore: the current computer is a different object from the rewritten one and holds the fields it had at the save |
| Memento.RestoreSharesSnapshot | Lab3/src/App.java:156-158 | after a restore, a write through the current reference changes the memento's saved object |
| Bridge.OperatingSystem.InstallDrivers | Lab3/src/App.java:85-98 | the line is "Installing ", the family name, " drivers for: ", then the computer's rendering |
| Bridge.VariantsReportDifferently | Lab3/src/App.java:88-97 | a Linux line never equals a Windows line, whatever the two computers hold |
| Bridge.LinuxLine | Lab3/src/App.java:94-98 | the Linux variant prints "Installing Linux drivers for: " followed by the rendering |
| Bridge.PC.constructor | Lab3/src/App.java:105-116 | a PC is bound to the operating system it is given |
| Bridge.PC.Setup | Lab3/src/App.java:119-121 | setup produces exactly the bound system's driver line and changes nothing else |
| App.Run | Lab3/src/App.java:2-28 | the program prints "Initial PC: CPU: Intel i9, GPU: RTX 4080, RAM: 32GB", then "Modified PC: " with the AMD configuration, then "Restored PC: " with the Intel configuration, then "Installing Linux drivers for: " with the Intel configuration; the object of the first build ends up rendering the AMD configuration |

## Left out

- Console output: each `System.out.println` is modelled as a returned string; `App.Run` returns the four lines in order.
- The interfaces `ComputerBuilder` and `OperatingSystem` and the abstract class `ComputerPlatform`: each has one implementation or a closed set of variants here, so the builder is the class itself, the operating systems are a datatype with two variants, and `PC` holds its system directly. Dynamic dispatch is not modelled.
- Java's string conversion of `null`: only an unset `String` field is rendered, as the text `null`. A null `String` passed to a setter is modelled as `None`. A null `Computer` passed to `installDrivers` or `setup` is not modelled; the parameter types exclude it.
- Memento.ComputerConfigurator.Save: requires a current computer. The code throws a NullPointerException when there is none, and the model does not represent that exception.
- Memento.ComputerMemento.constructor: takes a non-null computer; a null argument throws in the code and is excluded by the type.
- Memento.ComputerConfigurator.Restore: takes a non-null memento. `restore(null)` throws a NullPointerException in the code, and the model does not represent that exception.
