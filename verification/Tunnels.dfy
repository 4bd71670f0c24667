/**
  tunnel.Parse: the transports --tunnel-mode lists, validated before main binds anything. What a transport makes of its
  own args and whether its credential is set are parameters.
*/
module Tunnels {
  /** By name, sorted as Parse takes them. */
  const TRANSPORTS := ["devtunnel", "link"]

  datatype Result = Kinds(kinds: seq<string>) | Refused(flag: Flag)
  datatype Flag = Mode | Name(name: string) | Args(name: string) | Credential(name: string) | BadArgs(name: string)

  // ----- the list -----------------------------------------------------------------------------------------------

  /** strings.SplitSeq at commas: the empty list is one empty name. */
  function Split(list: string): (names: seq<string>)
    ensures names != []
  {
    if list == "" then [""]
    else
      var rest := Split(list[1..]);
      if list[0] == ',' then [""] + rest else [[list[0]] + rest[0]] + rest[1..]
  }

  function Join(names: seq<string>): string {
    if names == [] then "" else if |names| == 1 then names[0] else names[0] + "," + Join(names[1..])
  }

  lemma {:induction false} SplitHead(name: string, list: string)
    requires ',' !in name
    ensures Split(name + "," + list) == [name] + Split(list)
    ensures Split(name) == [name]
  {
    if name == "" {
      assert ("" + "," + list)[1..] == list;
    } else {
      SplitHead(name[1..], list);
      assert (name + "," + list)[1..] == name[1..] + "," + list;
      assert [name[0]] + name[1..] == name;
    }
  }

  /** A list of names without commas is read as those names. */
  lemma {:induction false} SplitJoin(names: seq<string>)
    requires names != [] && forall n | n in names :: ',' !in n
    ensures Split(Join(names)) == names
  {
    if |names| == 1 {
      SplitHead(names[0], "");
    } else {
      SplitJoin(names[1..]);
      SplitHead(names[0], Join(names[1..]));
      assert [names[0]] + names[1..] == names;
    }
  }

  lemma JoinEmpty(rest: seq<string>)
    requires rest != []
    ensures Join([""] + rest) == "," + Join(rest)
  {
    assert ([""] + rest)[1..] == rest;
    assert "" + "," + Join(rest) == "," + Join(rest);
  }

  lemma JoinLonger(c: char, rest: seq<string>)
    requires rest != []
    ensures Join([[c] + rest[0]] + rest[1..]) == [c] + Join(rest)
  {
    var names := [[c] + rest[0]] + rest[1..];
    assert names[1..] == rest[1..];
    if |rest| > 1 { assert ([c] + rest[0]) + "," + Join(rest[1..]) == [c] + (rest[0] + "," + Join(rest[1..])); }
  }

  /** Every list is the names read from it, joined, and none of those holds a comma. */
  lemma {:induction false} JoinSplit(list: string)
    ensures Join(Split(list)) == list && forall n | n in Split(list) :: ',' !in n
  {
    if list != "" {
      var rest := Split(list[1..]);
      JoinSplit(list[1..]);
      JoinEmpty(rest);
      JoinLonger(list[0], rest);
      assert rest[0] in rest && list == [list[0]] + list[1..];
      hide Join;
    }
  }

  // ----- what is accepted ---------------------------------------------------------------------------------------

  predicate Listed(list: string, name: string) { name in Split(list) }

  function ArgsOf(args: map<string, string>, name: string): string { if name in args then args[name] else "" }

  predicate Once(names: seq<string>) { forall i, j | 0 <= i < j < |names| :: names[i] != names[j] }

  predicate ListOk(enable: bool, list: string) {
    && (enable <==> list != "")
    && (list != "" ==> Once(Split(list)) && forall n | n in Split(list) :: n in TRANSPORTS)
  }

  /** Args are given exactly to the transports listed, and each of those has its credential and understands its args. */
  predicate TransportOk(list: string, args: map<string, string>, token: string -> bool, starts: string -> bool, name: string) {
    && (Listed(list, name) <==> ArgsOf(args, name) != "")
    && (Listed(list, name) ==> token(name) && starts(name))
  }

  /** The names of all that are listed. */
  function Those(all: seq<string>, list: string): seq<string> {
    if all == [] then []
    else Those(all[..|all| - 1], list) + (if Listed(list, all[|all| - 1]) then [all[|all| - 1]] else [])
  }

  /** Why a transport is refused. */
  predicate Blames(list: string, args: map<string, string>, token: string -> bool, starts: string -> bool, flag: Flag) {
    match flag
    case Args(n) => n in TRANSPORTS && (Listed(list, n) <==> ArgsOf(args, n) == "")
    case Credential(n) => n in TRANSPORTS && Listed(list, n) && !token(n)
    case BadArgs(n) => n in TRANSPORTS && Listed(list, n) && !starts(n)
    case _ => false
  }

  method ReadList(list: string) returns (bad: Check)
    ensures list == "" ==> bad.Fine?
    ensures bad.Fine? ==> list == "" || (Once(Split(list)) && forall n | n in Split(list) :: n in TRANSPORTS)
    ensures bad.Bad? ==> bad.name in Split(list) && (bad.name !in TRANSPORTS || !Once(Split(list)))
  {
    var names := Split(list);
    var listed: set<string> := {};
    for i := 0 to |names|
      invariant forall n :: n in listed <==> n in names[..i]
      invariant list != "" ==> Once(names[..i]) && forall n | n in names[..i] :: n in TRANSPORTS
    {
      assert names[..i + 1] == names[..i] + [names[i]];
      if list != "" && (names[i] !in TRANSPORTS || names[i] in listed) { return Bad(names[i]); }
      listed := listed + {names[i]};
    }
    assert names[..|names|] == names;
    bad := Fine;
  }

  datatype Check = Fine | Bad(name: string)

  /** Parse: all of it is accepted, and then there is one task per listed transport, by name; or none of it is. */
  method Parse(enable: bool, list: string, args: map<string, string>, token: string -> bool, starts: string -> bool)
    returns (r: Result)
    ensures r.Kinds? <==> ListOk(enable, list) && forall n | n in TRANSPORTS :: TransportOk(list, args, token, starts, n)
    ensures r.Kinds? ==> r.kinds == Those(TRANSPORTS, list)
    ensures r.Kinds? ==>
      r.kinds == (if "devtunnel" in Split(list) then ["devtunnel"] else []) + (if "link" in Split(list) then ["link"] else [])
    ensures r.Refused? && (r.flag.Mode? || r.flag.Name?) ==> !ListOk(enable, list)
    ensures r.Refused? && !(r.flag.Mode? || r.flag.Name?) ==> ListOk(enable, list) && Blames(list, args, token, starts, r.flag)
  {
    if enable != (list != "") { return Refused(Mode); }
    var bad := ReadList(list);
    if bad.Bad? { return Refused(Name(bad.name)); }
    hide Split, Once;
    var all: seq<string> := [];
    var names := TRANSPORTS;
    for i := 0 to |names|
      invariant all == Those(names[..i], list)
      invariant forall k | 0 <= k < i :: TransportOk(list, args, token, starts, names[k])
    {
      var name := names[i];
      assert name in TRANSPORTS;
      assert names[..i + 1][..i] == names[..i];
      if Listed(list, name) != (ArgsOf(args, name) != "") { return Refused(Args(name)); }
      if Listed(list, name) {
        if !token(name) { return Refused(Credential(name)); }
        if !starts(name) { return Refused(BadArgs(name)); }
        all := all + [name];
      }
    }
    assert names[..|names|] == names;
    ThoseInWords(list);
    r := Kinds(all);
  }

  lemma ThoseInWords(list: string)
    ensures Those(TRANSPORTS, list) ==
      (if "devtunnel" in Split(list) then ["devtunnel"] else []) + (if "link" in Split(list) then ["link"] else [])
  {
    assert TRANSPORTS[..1] == ["devtunnel"];
    assert ["devtunnel"][..0] == [];
    assert Those(["devtunnel"], list) == Those([], list) + (if Listed(list, "devtunnel") then ["devtunnel"] else []);
    assert Those(TRANSPORTS, list) == Those(["devtunnel"], list) + (if Listed(list, "link") then ["link"] else []);
    hide Split;
  }

  lemma {:induction false} ThoseAreListed(all: seq<string>, list: string, kind: string)
    ensures kind in Those(all, list) <==> kind in all && Listed(list, kind)
  {
    if all != [] {
      ThoseAreListed(all[..|all| - 1], list, kind);
      assert all == all[..|all| - 1] + [all[|all| - 1]];
    }
  }

  /** The tasks are those of the names given, however the list orders them. */
  lemma KindsAreTheListed(names: seq<string>, kind: string)
    requires names != [] && Once(names) && forall n | n in names :: n in TRANSPORTS
    ensures kind in Those(TRANSPORTS, Join(names)) <==> kind in names
  {
    forall n | n in names ensures ',' !in n {}
    SplitJoin(names);
    ThoseAreListed(TRANSPORTS, Join(names), kind);
  }
}
