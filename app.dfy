/**
 The demonstration program: build a computer, make it current, save it, build
 a second one from the same builder, make that current, restore, and run the
 Linux setup on the restored computer. The four printed lines are returned.
 */
module App {
  import opened Computers
  import opened Builder
  import opened Memento
  import opened Bridge

  /** The configurations the two chained builds set up. */
  const First := Config(Some("Intel i9"), Some("RTX 4080"), Some("32GB"))
  const Second := Config(Some("AMD Ryzen 9"), Some("RX 7900"), Some("64GB"))

  /** The renderings of the two configurations, as the program prints them. */
  const FirstText := "CPU: Intel i9, GPU: RTX 4080, RAM: 32GB"
  const SecondText := "CPU: AMD Ryzen 9, GPU: RX 7900, RAM: 64GB"

  /** The renderings of the two configurations, worked out once so the scenario can reuse them. */
  lemma FirstRendering()
    ensures First.Render() == FirstText
  {
  }

  lemma SecondRendering()
    ensures Second.Render() == SecondText
  {
  }

  /**
   Runs the demonstration. `output` holds the four printed lines in order;
   `firstBuild` is the rendering, at the end, of the object the first build
   returned. Because both builds return the builder's one object, that object
   was overwritten by the second build, yet the restored computer still shows
   the first configuration.
   */
  method Run() returns (output: seq<string>, firstBuild: string)
    ensures output == [
      "Initial PC: " + FirstText,
      "Modified PC: " + SecondText,
      "Restored PC: " + FirstText,
      "Installing Linux drivers for: " + FirstText]
    ensures firstBuild == SecondText
  {
    FirstRendering();
    SecondRendering();
    var builder := new GamingComputerBuilder();
    var config := new ComputerConfigurator();

    var pc1 := BuildFull(builder, "Intel i9", "RTX 4080", "32GB");
    config.SetComputer(pc1);
    var shown := config.GetComputer();
    assert shown.Value() == First;
    var initial := "Initial PC: " + shown.ToString();

    var backup := config.Save();

    var pc2 := BuildFull(builder, "AMD Ryzen 9", "RX 7900", "64GB");
    assert pc1 == pc2;
    config.SetComputer(pc2);
    shown := config.GetComputer();
    assert shown.Value() == Second;
    var modified := "Modified PC: " + shown.ToString();

    config.Restore(backup);
    shown := config.GetComputer();
    assert shown.Value() == First;
    var restored := "Restored PC: " + shown.ToString();

    var platform := new PC(LinuxOS);
    shown := config.GetComputer();
    var installed := platform.Setup(shown);
    LinuxLine(shown);

    output := [initial, modified, restored, installed];
    firstBuild := pc1.ToString();
  }
}
