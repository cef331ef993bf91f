/**
 The bridge between a platform and the operating system it is bound to. The
 driver step prints one line; here that line is returned instead.
 */
module Bridge {
  import opened Computers

  /** The two operating-system variants; they differ only in the family name they report. */
  datatype OperatingSystem = WindowsOS | LinuxOS
  {
    function Family(): string
    {
      match this
      case WindowsOS => "Windows"
      case LinuxOS => "Linux"
    }

    /** `installDrivers`: "Installing <family> drivers for: " followed by the computer's rendering. */
    function InstallDrivers(computer: Computer): (line: string)
      reads computer
      ensures var prefix := "Installing " + Family() + " drivers for: ";
        && |line| == |prefix| + |computer.ToString()|
        && line[..|prefix|] == prefix
        && line[|prefix|..] == computer.ToString()
    {
      "Installing " + Family() + " drivers for: " + computer.ToString()
    }
  }

  /** A Linux line is never a Windows line, whatever the two computers hold. */
  lemma VariantsReportDifferently(linux: Computer, windows: Computer)
    ensures LinuxOS.InstallDrivers(linux) != WindowsOS.InstallDrivers(windows)
  {
    assert LinuxOS.InstallDrivers(linux)[11] == 'L';
    assert WindowsOS.InstallDrivers(windows)[11] == 'W';
  }

  /** The line the Linux variant prints. */
  lemma LinuxLine(computer: Computer)
    ensures LinuxOS.InstallDrivers(computer) == "Installing Linux drivers for: " + computer.ToString()
  {
    assert "Installing " + LinuxOS.Family() + " drivers for: " == "Installing Linux drivers for: ";
  }

  /** The platform `PC`: bound to one operating system for its whole life. */
  class PC {
    const os: OperatingSystem

    constructor (os: OperatingSystem)
      ensures this.os == os
    {
      this.os := os;
    }

    /**
     `setup`: forwards to the bound system's driver step. It yields exactly that
     step's line and, having no modifies clause, changes nothing else.
     */
    method Setup(computer: Computer) returns (line: string)
      ensures line == os.InstallDrivers(computer)
    {
      line := os.InstallDrivers(computer);
    }
  }
}
