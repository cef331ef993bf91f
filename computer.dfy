/**
 The configuration value of a computer: three optional text fields (CPU, GPU,
 RAM) and their rendering, plus the mutable `Computer` object that holds them.
 */
module Computers {

  /** A text that may be absent: `None` stands for a Java `null` `String` in App.java. */
  datatype Option<T> = None | Some(value: T)

  /** The three parts a builder can set. */
  datatype Part = Cpu | Gpu | Ram

  /** One setter call: which part, and the argument it is given (`None` for a `null` argument). */
  datatype Setting = Setting(part: Part, value: Option<string>)

  /** How a field appears inside a rendering: an unset field reads "null". */
  function Text(f: Option<string>): string
  {
    match f
    case None => "null"
    case Some(s) => s
  }

  /** The contents of a `Computer` at one moment. */
  datatype Config = Config(cpu: Option<string>, gpu: Option<string>, ram: Option<string>)
  {
    function Get(p: Part): Option<string>
    {
      match p
      case Cpu => cpu
      case Gpu => gpu
      case Ram => ram
    }

    /** The configuration after one setter call: that part holds the argument, the other two are kept. */
    function Set(s: Setting): (c: Config)
      ensures c.Get(s.part) == s.value
      ensures forall p :: p != s.part ==> c.Get(p) == Get(p)
    {
      match s.part
      case Cpu => this.(cpu := s.value)
      case Gpu => this.(gpu := s.value)
      case Ram => this.(ram := s.value)
    }

    /** `Computer.toString` of App.java: "CPU: <cpu>, GPU: <gpu>, RAM: <ram>". */
    function Render(): string
    {
      "CPU: " + Text(cpu) + ", GPU: " + Text(gpu) + ", RAM: " + Text(ram)
    }
  }

  /** Where each field and each separator lies in a rendering. */
  lemma RenderLayout(x: Config)
    ensures var r, a, b, c := x.Render(), |Text(x.cpu)|, |Text(x.gpu)|, |Text(x.ram)|;
      && |r| == 19 + a + b + c
      && r[..5] == "CPU: "
      && r[5..5 + a] == Text(x.cpu)
      && r[5 + a..12 + a] == ", GPU: "
      && r[12 + a..12 + a + b] == Text(x.gpu)
      && r[12 + a + b..19 + a + b] == ", RAM: "
      && r[19 + a + b..] == Text(x.ram)
  {
  }

  /** A freshly allocated `Computer`: nothing set yet. */
  const Unset := Config(None, None, None)

  /** A common prefix can be cancelled. */
  lemma CancelPrefix(p: string, v: string, w: string)
    requires p + v == p + w
    ensures v == w
  {
    assert v == (p + v)[|p|..];
    assert w == (p + w)[|p|..];
  }

  /** A comma-free text followed by something that starts with a comma is split there uniquely. */
  lemma SplitAtComma(t: string, u: string, v: string, w: string)
    requires ',' !in t && ',' !in u
    requires |v| > 0 && v[0] == ',' && |w| > 0 && w[0] == ','
    requires t + v == u + w
    ensures t == u && v == w
  {
    var r := t + v;
    assert r[|t|] == ',' && r[|u|] == ',';
    assert forall k | 0 <= k < |t| :: r[k] == t[k];
    assert forall k | 0 <= k < |u| :: r[k] == u[k];
    assert |t| == |u|;
    assert t == r[..|t|] == u;
    assert v == r[|t|..] == w;
  }

  /**
   When no CPU or GPU text contains a comma, two renderings are equal exactly
   when the three field texts are: the rendering loses no information.
   */
  lemma RenderDeterminesFields(x: Config, y: Config)
    requires ',' !in Text(x.cpu) && ',' !in Text(y.cpu)
    requires ',' !in Text(x.gpu) && ',' !in Text(y.gpu)
    ensures x.Render() == y.Render() <==>
      Text(x.cpu) == Text(y.cpu) && Text(x.gpu) == Text(y.gpu) && Text(x.ram) == Text(y.ram)
  {
    if x.Render() == y.Render() {
      var ramX, ramY := ", RAM: " + Text(x.ram), ", RAM: " + Text(y.ram);
      var gpuX, gpuY := ", GPU: " + (Text(x.gpu) + ramX), ", GPU: " + (Text(y.gpu) + ramY);
      assert x.Render() == "CPU: " + (Text(x.cpu) + gpuX);
      assert y.Render() == "CPU: " + (Text(y.cpu) + gpuY);
      CancelPrefix("CPU: ", Text(x.cpu) + gpuX, Text(y.cpu) + gpuY);
      SplitAtComma(Text(x.cpu), Text(y.cpu), gpuX, gpuY);
      CancelPrefix(", GPU: ", Text(x.gpu) + ramX, Text(y.gpu) + ramY);
      SplitAtComma(Text(x.gpu), Text(y.gpu), ramX, ramY);
      CancelPrefix(", RAM: ", Text(x.ram), Text(y.ram));
    }
  }

  /** The `Computer` of App.java: three fields that any holder of the reference may overwrite. */
  class Computer {
    var cpu: Option<string>
    var gpu: Option<string>
    var ram: Option<string>

    constructor ()
      ensures Value() == Unset
    {
      cpu, gpu, ram := None, None, None;
    }

    /** The current contents of this object. */
    function Value(): Config
      reads this
    {
      Config(cpu, gpu, ram)
    }

    /** `toString`: the rendering of the current contents. */
    function ToString(): (s: string)
      reads this
      ensures s == Value().Render()
    {
      Value().Render()
    }
  }
}
