/**
 * The computer builder. A Builder collects a configuration through chained
 * setters, each of which returns the builder itself; build checks that the
 * three required parts are present and produces an immutable Computer with
 * its own copy of the port list. A director builds three fixed configurations.
 */
module BuilderPattern {
  import opened Wrappers

  /** The product: all fields final, the port list an unmodifiable copy. */
  datatype Computer = Computer(
    cpu: string, ram: string, storage: string, gpu: string,
    hasWifi: bool, hasBluetooth: bool, ports: seq<string>)

  /** The builder's fields at one moment; None is a required part not yet given. */
  datatype Config = Config(
    cpu: Option<string>, ram: Option<string>, storage: Option<string>, gpu: string,
    hasWifi: bool, hasBluetooth: bool, ports: seq<string>)

  /** A new builder: nothing required given, integrated graphics, no radios, no ports. */
  const Defaults: Config := Config(None, None, None, "Integrated Graphics", false, false, [])

  const MissingParts: string := "CPU, RAM, and Storage are required"

  /**
   * build: an error when the CPU, the RAM or the storage is missing, and
   * otherwise a computer that has exactly the builder's values.
   */
  function Built(c: Config): (r: Result<Computer, string>)
    ensures r.Err? <==> c.cpu.None? || c.ram.None? || c.storage.None?
    ensures r.Err? ==> r.error == MissingParts
    ensures r.Ok? ==> && Some(r.value.cpu) == c.cpu && Some(r.value.ram) == c.ram
                      && Some(r.value.storage) == c.storage && r.value.gpu == c.gpu
                      && r.value.hasWifi == c.hasWifi && r.value.hasBluetooth == c.hasBluetooth
                      && r.value.ports == c.ports
  {
    match (c.cpu, c.ram, c.storage)
    case (Some(cpu), Some(ram), Some(storage)) =>
      Ok(Computer(cpu, ram, storage, c.gpu, c.hasWifi, c.hasBluetooth, c.ports))
    case _ => Err(MissingParts)
  }

  /** A builder given only the defaults cannot build. */
  lemma DefaultsDoNotBuild()
    ensures Built(Defaults) == Err(MissingParts)
  {
  }

  class Builder {
    var cpu: Option<string>
    var ram: Option<string>
    var storage: Option<string>
    var gpu: string
    var hasWifi: bool
    var hasBluetooth: bool
    var ports: seq<string>

    function State(): Config
      reads this
    {
      Config(cpu, ram, storage, gpu, hasWifi, hasBluetooth, ports)
    }

    constructor ()
      ensures State() == Defaults
    {
      cpu, ram, storage := None, None, None;
      gpu := "Integrated Graphics";
      hasWifi, hasBluetooth := false, false;
      ports := [];
    }

    method Cpu(cpu: string) returns (b: Builder)
      modifies this
      ensures b == this && State() == old(State()).(cpu := Some(cpu))
    {
      this.cpu := Some(cpu);
      b := this;
    }

    method Ram(ram: string) returns (b: Builder)
      modifies this
      ensures b == this && State() == old(State()).(ram := Some(ram))
    {
      this.ram := Some(ram);
      b := this;
    }

    method Storage(storage: string) returns (b: Builder)
      modifies this
      ensures b == this && State() == old(State()).(storage := Some(storage))
    {
      this.storage := Some(storage);
      b := this;
    }

    method Gpu(gpu: string) returns (b: Builder)
      modifies this
      ensures b == this && State() == old(State()).(gpu := gpu)
    {
      this.gpu := gpu;
      b := this;
    }

    /** withWifi: the flag is set, whatever it was, so a second call changes nothing. */
    method WithWifi() returns (b: Builder)
      modifies this
      ensures b == this && State() == old(State()).(hasWifi := true)
    {
      hasWifi := true;
      b := this;
    }

    method WithBluetooth() returns (b: Builder)
      modifies this
      ensures b == this && State() == old(State()).(hasBluetooth := true)
    {
      hasBluetooth := true;
      b := this;
    }

    /** addPort: the port goes at the end of the list. */
    method AddPort(port: string) returns (b: Builder)
      modifies this
      ensures b == this && State() == old(State()).(ports := old(ports) + [port])
    {
      ports := ports + [port];
      b := this;
    }

    /** build: leaves the builder as it is. */
    method Build() returns (r: Result<Computer, string>)
      ensures r == Built(State())
      ensures r.Err? <==> cpu.None? || ram.None? || storage.None?
    {
      if cpu.None? || ram.None? || storage.None? {
        return Err(MissingParts);
      }
      r := Ok(Computer(cpu.value, ram.value, storage.value, gpu, hasWifi, hasBluetooth, ports));
    }
  }

  /** The start every chain in the program shares: a new builder given the three required parts. */
  method Required(cpu: string, ram: string, storage: string) returns (b: Builder)
    ensures fresh(b) && b.State() == Defaults.(cpu := Some(cpu), ram := Some(ram), storage := Some(storage))
  {
    b := new Builder();
    b := b.Cpu(cpu);
    b := b.Ram(ram);
    b := b.Storage(storage);
  }

  /** buildGamingComputer: every part named, both radios, four ports. */
  method BuildGamingComputer() returns (c: Computer)
    ensures c == Computer("Intel i9-13900K", "32GB DDR5", "1TB NVMe SSD", "NVIDIA RTX 4080", true, true,
                          ["USB-C", "USB 3.0", "HDMI", "DisplayPort"])
  {
    var b := Required("Intel i9-13900K", "32GB DDR5", "1TB NVMe SSD");
    b := b.Gpu("NVIDIA RTX 4080");
    b := b.WithWifi();
    b := b.WithBluetooth();
    b := b.AddPort("USB-C");
    b := b.AddPort("USB 3.0");
    b := b.AddPort("HDMI");
    b := b.AddPort("DisplayPort");
    var r := b.Build();
    c := r.value;
  }

  /** buildOfficeComputer: the default GPU, WiFi but no Bluetooth. */
  method BuildOfficeComputer() returns (c: Computer)
    ensures c == Computer("Intel i5-13400", "16GB DDR4", "512GB SSD", "Integrated Graphics", true, false,
                          ["USB 3.0", "HDMI"])
  {
    var b := Required("Intel i5-13400", "16GB DDR4", "512GB SSD");
    b := b.WithWifi();
    b := b.AddPort("USB 3.0");
    b := b.AddPort("HDMI");
    var r := b.Build();
    c := r.value;
  }

  /** buildBudgetComputer: only the required parts and one port. */
  method BuildBudgetComputer() returns (c: Computer)
    ensures c == Computer("AMD Ryzen 5", "8GB DDR4", "256GB SSD", "Integrated Graphics", false, false, ["USB 3.0"])
  {
    var b := Required("AMD Ryzen 5", "8GB DDR4", "256GB SSD");
    b := b.AddPort("USB 3.0");
    var r := b.Build();
    c := r.value;
  }

  /** The demonstration's custom computer: WiFi, Bluetooth and two ports on the default GPU. */
  method CustomComputerScenario() returns (built: Computer)
    ensures built == Computer("Apple M2 Pro", "16GB Unified Memory", "512GB SSD", "Integrated Graphics",
                              true, true, ["Thunderbolt 4", "USB-C"])
  {
    var b := Required("Apple M2 Pro", "16GB Unified Memory", "512GB SSD");
    b := b.WithWifi();
    b := b.WithBluetooth();
    b := b.AddPort("Thunderbolt 4");
    b := b.AddPort("USB-C");
    var r := b.Build();
    built := r.value;
  }

  /**
   * Setters are last-write-wins and withWifi twice is withWifi once; a builder
   * still missing its storage refuses to build.
   */
  method MissingStorageScenario() returns (cpu: Option<string>, wifi: bool, missing: Result<Computer, string>)
    ensures cpu == Some("Apple M2 Pro") && wifi
    ensures missing == Err(MissingParts)
  {
    var b := new Builder();
    b := b.Cpu("Apple M1");
    b := b.Cpu("Apple M2 Pro");
    b := b.WithWifi();
    b := b.WithWifi();
    b := b.Ram("16GB Unified Memory");
    cpu, wifi := b.cpu, b.hasWifi;
    missing := b.Build();
  }

  /** A port added after build reaches the builder but not the computer already built. */
  method PortAfterBuildScenario() returns (built: Computer, portsAfter: seq<string>)
    ensures built.ports == ["Thunderbolt 4"]
    ensures portsAfter == ["Thunderbolt 4", "HDMI"]
  {
    var b := Required("Apple M2 Pro", "16GB Unified Memory", "512GB SSD");
    b := b.AddPort("Thunderbolt 4");
    var r := b.Build();
    built := r.value;
    b := b.AddPort("HDMI");
    portsAfter := b.ports;
  }
}
