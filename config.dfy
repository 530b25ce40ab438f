/** The service defaults `createServer` reads from the package record. */
module Config {
  import opened Wrappers
  import opened Js

  /** The `stdlib` section of a package record. */
  datatype Stdlib = Stdlib(name: Option<string>, defaultFunction: Option<string>)

  /** A package record: its `name` and its optional `stdlib` section. */
  datatype Package = Package(name: Option<string>, stdlib: Option<Stdlib>)

  /** `pkg.stdlib && pkg.stdlib.name`, as a possibly absent string. */
  function StdlibName(pkg: Package): Option<string> {
    if pkg.stdlib.Some? then pkg.stdlib.value.name else None
  }

  /** `pkg.stdlib && pkg.stdlib.defaultFunction`, as a possibly absent string. */
  function StdlibDefault(pkg: Package): Option<string> {
    if pkg.stdlib.Some? then pkg.stdlib.value.defaultFunction else None
  }

  /** The chain `a || b || ... || ''`: the first given candidate, else the empty string. */
  function FirstGiven(candidates: seq<Option<string>>): (r: string)
    ensures r == "" <==> forall i :: 0 <= i < |candidates| ==> !Given(candidates[i])
    ensures r != "" ==>
      exists i :: 0 <= i < |candidates| && Given(candidates[i]) && r == candidates[i].value
        && forall j :: 0 <= j < i ==> !Given(candidates[j])
  {
    if candidates == [] then ""
    else if Given(candidates[0]) then candidates[0].value
    else
      var r := FirstGiven(candidates[1..]);
      assert forall i :: 1 <= i < |candidates| ==> candidates[i] == candidates[1..][i - 1];
      r
  }

  /** The service name shown at start-up. */
  function ServiceName(pkg: Package): (r: string)
    ensures Given(StdlibName(pkg)) ==> r == StdlibName(pkg).value
    ensures !Given(StdlibName(pkg)) && Given(pkg.name) ==> r == pkg.name.value
    ensures r == "" <==> !Given(StdlibName(pkg)) && !Given(pkg.name)
  {
    var candidates := [StdlibName(pkg), pkg.name];
    var r := FirstGiven(candidates);
    assert candidates[1] == pkg.name;
    assert r != "" && !Given(candidates[0]) ==> r == candidates[1].value;
    r
  }

  /** The function the root path `/` is mapped to. */
  function DefaultFunction(pkg: Package): (r: string)
    ensures Given(StdlibDefault(pkg)) ==> r == StdlibDefault(pkg).value
    ensures r == "" <==> !Given(StdlibDefault(pkg))
  {
    FirstGiven([StdlibDefault(pkg)])
  }
}
