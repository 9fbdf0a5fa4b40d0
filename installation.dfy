/**
 * `NUnitInstallation`: a named NUnit console installation (a tool name and a home, which is
 * the path of the console executable) and the descriptor that holds the configured list.
 * The Jenkins singleton that owns the descriptor is replaced by an explicit
 * `InstallationDescriptor` object.
 */
module NUnitInstallation {
  import opened Wrappers

  /** Name of the installation created when none is configured, and preferred by default selection. */
  const Default: string := "Default"

  /**
   * One installation. `home` is the tool home (null in Java is `None`); `pathToNUnit` is the
   * deprecated field that configurations saved by older versions still carry. Every installation
   * built by this code has no legacy field.
   */
  datatype Installation = Installation(name: string, home: Option<string>, pathToNUnit: Option<string>)

  /** The constructor `NUnitInstallation(name, home)`. */
  function Make(name: string, home: Option<string>): (i: Installation)
    ensures i.name == name && i.home == home && i.pathToNUnit.None?
  {
    Installation(name, home, None)
  }

  /** `getNUnitExe`: the executable is the home. */
  function NUnitExe(i: Installation): Option<string> {
    i.home
  }

  /** The platform test: Windows is recognised by `;` as the path separator. */
  predicate IsWindows(pathSeparator: char) {
    pathSeparator == ';'
  }

  /** The executable of the installation `onLoaded` creates. */
  function DefaultExe(pathSeparator: char): (exe: string)
    ensures IsWindows(pathSeparator) ==> exe == "nunit3-console.exe"
    ensures !IsWindows(pathSeparator) ==> exe == "nunit-console"
  {
    if pathSeparator == ';' then "nunit3-console.exe" else "nunit-console"
  }

  /** The installation `onLoaded` creates: named `Default`, with the platform's console as home. */
  function DefaultTool(pathSeparator: char): (i: Installation)
    ensures i.name == Default && NUnitExe(i) == Some(DefaultExe(pathSeparator)) && i.pathToNUnit.None?
  {
    Make(Default, Some(DefaultExe(pathSeparator)))
  }

  /**
   * `forNode`: the same installation with its home translated for a node. The translation is done
   * by the host (`translateFor`), so its outcome is a parameter.
   */
  function ForNode(i: Installation, translatedHome: Option<string>): (r: Installation)
    ensures r.name == i.name && NUnitExe(r) == translatedHome && r.pathToNUnit.None?
  {
    Make(i.name, translatedHome)
  }

  /** `forEnvironment`: the same installation with environment variables expanded in its home;
      `expand` stands for `EnvVars.expand`, which keeps a null home null. */
  function ForEnvironment(i: Installation, expand: string -> string): (r: Installation)
    ensures r.name == i.name && r.pathToNUnit.None?
    ensures i.home.None? ==> NUnitExe(r).None?
    ensures i.home.Some? ==> NUnitExe(r) == Some(expand(i.home.value))
  {
    Make(i.name, if i.home.Some? then Some(expand(i.home.value)) else None)
  }

  /** `readResolve`: an installation loaded with the legacy field becomes (name, legacy path). */
  function ReadResolve(i: Installation): (r: Installation)
    ensures r.name == i.name && r.pathToNUnit.None?
    ensures i.pathToNUnit.Some? ==> NUnitExe(r) == i.pathToNUnit
    ensures i.pathToNUnit.None? ==> r == i
  {
    if i.pathToNUnit.Some? then Make(i.name, i.pathToNUnit) else i
  }

  /** The position of the first installation named `name`, if any. */
  function Lookup(installations: seq<Installation>, name: string): (r: Option<nat>)
    ensures r.None? <==> forall k :: 0 <= k < |installations| ==> installations[k].name != name
    ensures r.Some? ==> r.value < |installations| && installations[r.value].name == name
                        && forall k :: 0 <= k < r.value ==> installations[k].name != name
  {
    if installations == [] then None
    else if installations[0].name == name then Some(0)
    else
      var rest := Lookup(installations[1..], name);
      if rest.Some? then Some(rest.value + 1) else None
  }

  /** The list after `onLoaded`: unchanged when something is configured, else the single default. */
  function Loaded(installations: seq<Installation>, pathSeparator: char): (r: seq<Installation>)
    ensures installations != [] ==> r == installations
    ensures installations == [] ==> r == [DefaultTool(pathSeparator)]
  {
    if installations != [] then installations else [DefaultTool(pathSeparator)]
  }

  /** The selection `getDefaultInstallation` makes: the one named `Default` (see
      `DefaultPrefersDefaultName`), else the first, else the freshly created default. It is always
      one of the installations present after loading, and it is named `Default` exactly when some
      installation of that name exists then. */
  function DefaultFor(installations: seq<Installation>, pathSeparator: char): (r: Installation)
    ensures r in Loaded(installations, pathSeparator)
    ensures Lookup(installations, Default).None? && installations != [] ==> r == installations[0]
    ensures installations == [] ==> r == DefaultTool(pathSeparator)
    ensures r.name == Default <==> exists k :: 0 <= k < |Loaded(installations, pathSeparator)|
                                             && Loaded(installations, pathSeparator)[k].name == Default
  {
    var loaded := Loaded(installations, pathSeparator);
    match Lookup(installations, Default)
    case Some(k) =>
      assert loaded[k].name == Default;
      installations[k]
    case None =>
      if installations != [] then installations[0]
      else
        assert loaded[0].name == Default;
        DefaultTool(pathSeparator)
  }

  /** With an installation named `Default`, selection returns the first such one. */
  lemma DefaultPrefersDefaultName(installations: seq<Installation>, pathSeparator: char, k: nat)
    requires k < |installations| && installations[k].name == Default
    requires forall m :: 0 <= m < k ==> installations[m].name != Default
    ensures DefaultFor(installations, pathSeparator) == installations[k]
  {
    var r := Lookup(installations, Default);
    assert r.Some?;
    assert r.value == k;
  }

  /**
   * The tool descriptor: the configured list, and the list last persisted by `save`.
   */
  class InstallationDescriptor {
    var installations: seq<Installation>
    var saved: seq<Installation>

    constructor (installations: seq<Installation>)
      ensures this.installations == installations && saved == installations
    {
      this.installations := installations;
      saved := installations;
    }

    /** `getInstallation(name)`: the first installation whose name equals `name`, if any. */
    method GetInstallation(name: string) returns (r: Option<Installation>)
      ensures r.None? <==> forall k :: 0 <= k < |installations| ==> installations[k].name != name
      ensures r.Some? ==> exists k :: 0 <= k < |installations| && installations[k] == r.value
                                      && installations[k].name == name
                                      && forall m :: 0 <= m < k ==> installations[m].name != name
      ensures r.Some? <==> Lookup(installations, name).Some?
      ensures r.Some? ==> r.value == installations[Lookup(installations, name).value]
    {
      var k := 0;
      while k < |installations|
        invariant 0 <= k <= |installations|
        invariant forall m :: 0 <= m < k ==> installations[m].name != name
      {
        if installations[k].name == name {
          return Some(installations[k]);
        }
        k := k + 1;
      }
      return None;
    }

    /** `onLoaded`: creates and saves the single default installation when none is configured,
        and otherwise changes nothing. */
    method OnLoaded(pathSeparator: char)
      modifies this
      ensures installations == Loaded(old(installations), pathSeparator)
      ensures old(installations) != [] ==> saved == old(saved)
      ensures old(installations) == [] ==> saved == installations
    {
      if |installations| > 0 {
        return;
      }
      var tool := Make(Default, Some(DefaultExe(pathSeparator)));
      installations := [tool];
      saved := installations;
    }

    /** `getDefaultInstallation`: the one named `Default`, else the first configured one, else
        the default that `onLoaded` creates for an empty list. */
    method GetDefaultInstallation(pathSeparator: char) returns (r: Installation)
      modifies this
      ensures r == DefaultFor(old(installations), pathSeparator)
      ensures installations == Loaded(old(installations), pathSeparator)
      ensures old(installations) != [] ==> saved == old(saved)
      ensures old(installations) == [] ==> saved == installations
    {
      var tool := GetInstallation(Default);
      if tool.Some? {
        return tool.value;
      }
      if |installations| > 0 {
        return installations[0];
      }
      OnLoaded(pathSeparator);
      return installations[0];
    }
  }
}
