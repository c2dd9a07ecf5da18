/** The `/create-vm` derivations of VM-JS/app.js and the two JSON
    dictionaries the server keeps per container id: the container name,
    the start-up script, the port bindings and the resource limits passed to
    Docker; the stored configuration and the terminal log of each container.
    Docker, uuid and the clock are parameters; RAM, swap and cores arrive as
    already parsed integers. */
module VmProvisioning {
  import opened Common
  import opened Strings

  // ---------------------------------------------------------------------
  // Container name

  predicate NameChar(c: char) {
    ('a' <= c <= 'z') || ('0' <= c <= '9') || c == '-'
  }

  /** `.replace(/[^a-z0-9-]/g, '')`. */
  function KeepNameChars(s: string): (r: string)
    ensures forall k :: 0 <= k < |r| ==> NameChar(r[k])
    ensures (forall k :: 0 <= k < |s| ==> NameChar(s[k])) ==> r == s
    ensures |r| <= |s|
  {
    if s == [] then []
    else (if NameChar(s[0]) then [s[0]] else []) + KeepNameChars(s[1..])
  }

  /** The clean-up deletes every other character and keeps the rest in
      order: it is `filter` with `NameChar`. */
  lemma {:induction false} KeepNameCharsIsFilter(s: string)
    ensures KeepNameChars(s) == Filter(s, NameChar)
  {
    if s != [] {
      KeepNameCharsIsFilter(s[1..]);
    }
  }

  lemma {:induction false} KeepNameCharsAppend(a: string, b: string)
    ensures KeepNameChars(a + b) == KeepNameChars(a) + KeepNameChars(b)
  {
    if a == [] {
      assert a + b == b;
    } else {
      assert (a + b)[1..] == a[1..] + b;
      KeepNameCharsAppend(a[1..], b);
    }
  }

  /** `` `vm-${name}-${vmId}`.toLowerCase().replace(/[^a-z0-9-]/g, '') ``:
      only lower-case letters, digits and `-`, and always the `vm-`
      prefix. */
  function ContainerName(name: string, vmId: string): (r: string)
    ensures forall k :: 0 <= k < |r| ==> NameChar(r[k])
    ensures StartsWith(r, "vm-")
    ensures r == "vm-" + KeepNameChars(ToLower(name)) + "-" + KeepNameChars(ToLower(vmId))
  {
    var lowered := ToLower("vm-" + name + "-" + vmId);
    ContainerNameParts(name, vmId);
    KeepNameChars(lowered)
  }

  /** The container name is the lower-cased template with every character
      outside `[a-z0-9-]` deleted. */
  lemma ContainerNameIsFilter(name: string, vmId: string)
    ensures ContainerName(name, vmId) == Filter(ToLower("vm-" + name + "-" + vmId), NameChar)
  {
    ContainerNameParts(name, vmId);
    KeepNameCharsIsFilter(ToLower("vm-" + name + "-" + vmId));
  }

  lemma ContainerNameParts(name: string, vmId: string)
    ensures KeepNameChars(ToLower("vm-" + name + "-" + vmId))
      == "vm-" + KeepNameChars(ToLower(name)) + "-" + KeepNameChars(ToLower(vmId))
  {
    LowerParts("vm-", name, "-", vmId);
    KeepParts("vm-", ToLower(name), "-", ToLower(vmId));
  }

  lemma LowerParts(p: string, x: string, d: string, y: string)
    requires ToLower(p) == p && ToLower(d) == d
    ensures ToLower(p + x + d + y) == p + ToLower(x) + d + ToLower(y)
  {
    ToLowerAppend(p + x + d, y);
    ToLowerAppend(p + x, d);
    ToLowerAppend(p, x);
  }

  lemma KeepParts(p: string, x: string, d: string, y: string)
    requires KeepNameChars(p) == p && KeepNameChars(d) == d
    ensures KeepNameChars(p + x + d + y) == p + KeepNameChars(x) + d + KeepNameChars(y)
  {
    KeepNameCharsAppend(p + x + d, y);
    KeepNameCharsAppend(p + x, d);
    KeepNameCharsAppend(p, x);
  }

  /** A name already made of lower-case letters, digits and `-` passes
      through unchanged. */
  lemma ContainerNameOfCleanParts(name: string, vmId: string)
    requires forall k :: 0 <= k < |name| ==> NameChar(name[k])
    requires forall k :: 0 <= k < |vmId| ==> NameChar(vmId[k])
    ensures ContainerName(name, vmId) == "vm-" + name + "-" + vmId
  {
    assert ToLower(name) == name;
    assert ToLower(vmId) == vmId;
  }

  // ---------------------------------------------------------------------
  // Install script

  /** The request's package switches. `installGit` and `installCurl` are
      sent by the form but read by nobody. */
  datatype Packages = Packages(
    installPython: bool, installJava: bool, installNode: bool,
    installMysql: bool, installMongodb: bool,
    installGit: bool, installCurl: bool)

  /** One `installScript +=` of the builder. */
  datatype Step =
    | Shebang | BaseUpdate
    | PythonInstall | JavaInstall | NodeSetup | NodeInstall
    | MysqlInstall | MysqlEnable
    | MongoKey | MongoRepo | MongoInstall | MongoEnable
    | StartFile | MysqlStart | MongoStart | Shell | Chmod

  /** The text each step appends. */
  function Text(step: Step): string {
    match step
    case Shebang => "#!/bin/bash\n"
    case BaseUpdate => "apt-get update && apt-get install -y wget sudo\n"
    case PythonInstall => "apt-get install -y python3 python3-pip\n"
    case JavaInstall => "apt-get install -y openjdk-11-jdk\n"
    case NodeSetup => "curl -fsSL https://deb.nodesource.com/setup_16.x | bash -\n"
    case NodeInstall => "apt-get install -y nodejs\n"
    case MysqlInstall => "apt-get install -y mysql-server\n"
    case MysqlEnable => "systemctl enable mysql\n"
    case MongoKey => "wget -qO - https://www.mongodb.org/static/pgp/server-4.4.asc | apt-key add -\n"
    case MongoRepo => "echo \"deb [ arch=amd64,arm64 ] https://repo.mongodb.org/apt/ubuntu focal/mongodb-org/4.4 multiverse\" | tee /etc/apt/sources.list.d/mongodb-org-4.4.list\n"
    case MongoInstall => "apt-get update && apt-get install -y mongodb-org\n"
    case MongoEnable => "systemctl enable mongod\n"
    case StartFile => "echo \"#!/bin/bash\" > /start.sh\n"
    case MysqlStart => "service mysql start\n"
    case MongoStart => "service mongod start\n"
    case Shell => "/bin/bash\n"
    case Chmod => "chmod +x /start.sh\n"
  }

  function Block(on: bool, steps: seq<Step>): seq<Step> {
    if on then steps else []
  }

  /** The steps of the builder, in order: the shebang, the base update,
      the package blocks in the fixed order Python, Java, Node, MySQL,
      MongoDB, the start-up file with its service starts, the shell and the
      `chmod`. */
  function ScriptSteps(p: Packages): seq<Step> {
    [Shebang] + [BaseUpdate]
    + Block(p.installPython, [PythonInstall])
    + Block(p.installJava, [JavaInstall])
    + Block(p.installNode, [NodeSetup, NodeInstall])
    + Block(p.installMysql, [MysqlInstall, MysqlEnable])
    + Block(p.installMongodb, [MongoKey, MongoRepo, MongoInstall, MongoEnable])
    + [StartFile]
    + Block(p.installMysql, [MysqlStart])
    + Block(p.installMongodb, [MongoStart])
    + [Shell] + [Chmod]
  }

  /** The text of a list of steps, in order, each step written by `text`.
      The script itself uses `Text`; the lemmas below hold for any texts. */
  function Render(steps: seq<Step>, text: Step -> string): string {
    if steps == [] then "" else text(steps[0]) + Render(steps[1..], text)
  }

  /** The script of a request. */
  function Script(p: Packages): string {
    Render(ScriptSteps(p), Text)
  }

  lemma {:induction false} RenderAppend(a: seq<Step>, b: seq<Step>, text: Step -> string)
    ensures Render(a + b, text) == Render(a, text) + Render(b, text)
  {
    if a == [] {
      assert a + b == b;
    } else {
      assert (a + b)[1..] == a[1..] + b;
      RenderAppend(a[1..], b, text);
    }
  }

  lemma RenderPair(a: Step, b: Step, text: Step -> string)
    ensures Render([a, b], text) == text(a) + text(b)
  {
    assert [a, b][1..] == [b];
    assert [b][1..] == [];
    assert Render([b], text) == text(b) + "";
    assert text(b) + "" == text(b);
  }

  lemma RenderSnoc(s: seq<Step>, step: Step, text: Step -> string)
    ensures Render(s + [step], text) == Render(s, text) + text(step)
  {
    RenderAppend(s, [step], text);
    assert [step][1..] == [];
    assert text(step) + "" == text(step);
  }

  /** The text a block contributes. */
  function BlockText(on: bool, block: seq<Step>, text: Step -> string): string {
    if on then Render(block, text) else ""
  }

  lemma RenderBlock(s: seq<Step>, on: bool, block: seq<Step>, text: Step -> string)
    ensures Render(s + Block(on, block), text) == Render(s, text) + BlockText(on, block, text)
  {
    if on {
      RenderAppend(s, block, text);
    } else {
      assert s + [] == s;
      assert Render(s, text) + "" == Render(s, text);
    }
  }

  /** `/create-vm`'s install script. */
  method InstallScript(p: Packages) returns (script: string)
    ensures script == Script(p)
  {
    script := BuildScript(p, Text);
  }

  /** The builder: the script starts as the shebang and grows by
      successive `+=`, each package block behind its switch. It is written
      for any line texts `text`; the server uses `Text`. */
  method BuildScript(p: Packages, text: Step -> string) returns (script: string)
    ensures script == Render(ScriptSteps(p), text)
  {
    script := text(Shebang);
    script := script + text(BaseUpdate);
    ghost var before := script;
    if p.installPython { script := script + text(PythonInstall); }
    OneLine(before, p.installPython, PythonInstall, script, text);
    before := script;
    if p.installJava { script := script + text(JavaInstall); }
    OneLine(before, p.installJava, JavaInstall, script, text);
    before := script;
    if p.installNode {
      script := script + text(NodeSetup);
      script := script + text(NodeInstall);
    }
    TwoLines(before, p.installNode, NodeSetup, NodeInstall, script, text);
    before := script;
    if p.installMysql {
      script := script + text(MysqlInstall);
      script := script + text(MysqlEnable);
    }
    TwoLines(before, p.installMysql, MysqlInstall, MysqlEnable, script, text);
    before := script;
    if p.installMongodb {
      script := script + text(MongoKey);
      script := script + text(MongoRepo);
      script := script + text(MongoInstall);
      script := script + text(MongoEnable);
    }
    FourLines(before, p.installMongodb, MongoKey, MongoRepo, MongoInstall, MongoEnable, script, text);
    script := script + text(StartFile);
    before := script;
    if p.installMysql { script := script + text(MysqlStart); }
    OneLine(before, p.installMysql, MysqlStart, script, text);
    before := script;
    if p.installMongodb { script := script + text(MongoStart); }
    OneLine(before, p.installMongodb, MongoStart, script, text);
    script := script + text(Shell);
    script := script + text(Chmod);
    ScriptText(p, text);
  }

  /** `if (on) script += line` appends the block `[line]`. */
  lemma OneLine(before: string, on: bool, line: Step, after: string, text: Step -> string)
    requires after == if on then before + text(line) else before
    ensures after == before + BlockText(on, [line], text)
  {
    assert [line][1..] == [];
    assert Render([], text) == "";
    assert text(line) + "" == text(line);
    assert before + "" == before;
  }

  /** Two `+=` behind one switch append the block of both lines. */
  lemma TwoLines(before: string, on: bool, a: Step, b: Step, after: string, text: Step -> string)
    requires after == if on then before + text(a) + text(b) else before
    ensures after == before + BlockText(on, [a, b], text)
  {
    RenderPair(a, b, text);
    assert before + "" == before;
  }

  /** Four `+=` behind one switch append the block of the four lines. */
  lemma FourLines(before: string, on: bool, a: Step, b: Step, c: Step, d: Step, after: string, text: Step -> string)
    requires after == if on then before + text(a) + text(b) + text(c) + text(d) else before
    ensures after == before + BlockText(on, [a, b, c, d], text)
  {
    if on {
      FourAfter(before, a, b, c, d, text);
    } else {
      assert before + "" == before;
    }
  }

  lemma FourAfter(before: string, a: Step, b: Step, c: Step, d: Step, text: Step -> string)
    ensures before + Render([a, b, c, d], text) == before + text(a) + text(b) + text(c) + text(d)
  {
    assert [a, b, c, d] == [a, b, c] + [d];
    assert [a, b, c] == [a, b] + [c];
    RenderSnoc([a, b, c], d, text);
    RenderSnoc([a, b], c, text);
    RenderPair(a, b, text);
    var ab := text(a) + text(b);
    ConcatAssoc(before, ab + text(c), text(d));
    ConcatAssoc(before, ab, text(c));
    ConcatAssoc(before, text(a), text(b));
  }


  /** The script as the texts of its blocks. */
  lemma ScriptText(p: Packages, text: Step -> string)
    ensures Render(ScriptSteps(p), text) ==
      text(Shebang) + text(BaseUpdate)
      + BlockText(p.installPython, [PythonInstall], text)
      + BlockText(p.installJava, [JavaInstall], text)
      + BlockText(p.installNode, [NodeSetup, NodeInstall], text)
      + BlockText(p.installMysql, [MysqlInstall, MysqlEnable], text)
      + BlockText(p.installMongodb, [MongoKey, MongoRepo, MongoInstall, MongoEnable], text)
      + text(StartFile)
      + BlockText(p.installMysql, [MysqlStart], text)
      + BlockText(p.installMongodb, [MongoStart], text)
      + text(Shell) + text(Chmod)
  {
    var s1 := [Shebang] + [BaseUpdate];
    assert s1 == [Shebang, BaseUpdate];
    RenderPair(Shebang, BaseUpdate, text);
    var s2 := s1 + Block(p.installPython, [PythonInstall]);
    RenderBlock(s1, p.installPython, [PythonInstall], text);
    var s3 := s2 + Block(p.installJava, [JavaInstall]);
    RenderBlock(s2, p.installJava, [JavaInstall], text);
    var s4 := s3 + Block(p.installNode, [NodeSetup, NodeInstall]);
    RenderBlock(s3, p.installNode, [NodeSetup, NodeInstall], text);
    var s5 := s4 + Block(p.installMysql, [MysqlInstall, MysqlEnable]);
    RenderBlock(s4, p.installMysql, [MysqlInstall, MysqlEnable], text);
    var s6 := s5 + Block(p.installMongodb, [MongoKey, MongoRepo, MongoInstall, MongoEnable]);
    RenderBlock(s5, p.installMongodb, [MongoKey, MongoRepo, MongoInstall, MongoEnable], text);
    var s7 := s6 + [StartFile];
    RenderSnoc(s6, StartFile, text);
    var s8 := s7 + Block(p.installMysql, [MysqlStart]);
    RenderBlock(s7, p.installMysql, [MysqlStart], text);
    var s9 := s8 + Block(p.installMongodb, [MongoStart]);
    RenderBlock(s8, p.installMongodb, [MongoStart], text);
    var s10 := s9 + [Shell];
    RenderSnoc(s9, Shell, text);
    RenderSnoc(s10, Chmod, text);
  }

  /** Every script starts with the shebang and the base update and ends by
      starting a shell and making `/start.sh` executable. */
  lemma ScriptFrame(p: Packages)
    ensures StartsWith(Script(p), Text(Shebang) + Text(BaseUpdate))
    ensures var s := Script(p); var tail := Text(Shell) + Text(Chmod);
      |s| >= |tail| && s[|s| - |tail|..] == tail
  {
    FrameFor(p, Text);
  }

  lemma FrameFor(p: Packages, text: Step -> string)
    ensures var s := Render(ScriptSteps(p), text); var head := text(Shebang) + text(BaseUpdate);
      |s| >= |head| && s[..|head|] == head
    ensures var s := Render(ScriptSteps(p), text); var tail := text(Shell) + text(Chmod);
      |s| >= |tail| && s[|s| - |tail|..] == tail
  {
    ScriptText(p, text);
    var h := text(Shebang) + text(BaseUpdate);
    var x1 := h + BlockText(p.installPython, [PythonInstall], text);
    var x2 := x1 + BlockText(p.installJava, [JavaInstall], text);
    var x3 := x2 + BlockText(p.installNode, [NodeSetup, NodeInstall], text);
    var x4 := x3 + BlockText(p.installMysql, [MysqlInstall, MysqlEnable], text);
    var x5 := x4 + BlockText(p.installMongodb, [MongoKey, MongoRepo, MongoInstall, MongoEnable], text);
    var x6 := x5 + text(StartFile);
    var x7 := x6 + BlockText(p.installMysql, [MysqlStart], text);
    var x8 := x7 + BlockText(p.installMongodb, [MongoStart], text);
    var x9 := x8 + text(Shell);
    var s := x9 + text(Chmod);
    assert StartsWith(h, h);
    PrefixGrows(h, BlockText(p.installPython, [PythonInstall], text), h);
    PrefixGrows(x1, BlockText(p.installJava, [JavaInstall], text), h);
    PrefixGrows(x2, BlockText(p.installNode, [NodeSetup, NodeInstall], text), h);
    PrefixGrows(x3, BlockText(p.installMysql, [MysqlInstall, MysqlEnable], text), h);
    PrefixGrows(x4, BlockText(p.installMongodb, [MongoKey, MongoRepo, MongoInstall, MongoEnable], text), h);
    PrefixGrows(x5, text(StartFile), h);
    PrefixGrows(x6, BlockText(p.installMysql, [MysqlStart], text), h);
    PrefixGrows(x7, BlockText(p.installMongodb, [MongoStart], text), h);
    PrefixGrows(x8, text(Shell), h);
    PrefixGrows(x9, text(Chmod), h);
    assert s == x8 + (text(Shell) + text(Chmod));
    assert s[|x8|..] == text(Shell) + text(Chmod);
  }

  lemma PrefixGrows(x: string, y: string, h: string)
    requires StartsWith(x, h)
    ensures StartsWith(x + y, h)
  {
    assert (x + y)[..|h|] == x[..|h|];
  }

  /** Each package block is present exactly when its switch is on. */
  lemma PackageBlocks(p: Packages)
    ensures PythonInstall in ScriptSteps(p) <==> p.installPython
    ensures JavaInstall in ScriptSteps(p) <==> p.installJava
    ensures NodeInstall in ScriptSteps(p) <==> p.installNode
    ensures MysqlInstall in ScriptSteps(p) <==> p.installMysql
    ensures MongoInstall in ScriptSteps(p) <==> p.installMongodb
  {
    PythonBlock(p);
    JavaBlock(p);
    NodeBlock(p);
    MysqlBlock(p);
    MongoBlock(p);
  }

  lemma PythonBlock(p: Packages)
    ensures PythonInstall in ScriptSteps(p) <==> p.installPython
  {
  }

  lemma JavaBlock(p: Packages)
    ensures JavaInstall in ScriptSteps(p) <==> p.installJava
  {
  }

  lemma NodeBlock(p: Packages)
    ensures NodeInstall in ScriptSteps(p) <==> p.installNode
  {
  }

  lemma MysqlBlock(p: Packages)
    ensures MysqlInstall in ScriptSteps(p) <==> p.installMysql
  {
  }

  lemma MongoBlock(p: Packages)
    ensures MongoInstall in ScriptSteps(p) <==> p.installMongodb
  {
  }

  /** The `git` and `curl` switches change nothing. */
  lemma GitAndCurlIgnored(p: Packages, git: bool, curl: bool)
    ensures Script(p.(installGit := git, installCurl := curl)) == Script(p)
  {
  }

  // ---------------------------------------------------------------------
  // Port bindings

  datatype HostBinding = HostBinding(hostPort: string)

  /** The binding one comma entry contributes, if any: the part before the
      first `:` is the host port, the part after it up to a second `:` the
      container port, and both must be non-empty. */
  function EntryBinding(entry: string): (r: Option<(string, string)>)
    ensures r.Some? ==> r.value.0 != "" && r.value.1 != "" && ':' !in r.value.0 && ':' !in r.value.1
  {
    var parts := Split(Trim(entry), ':');
    if parts[0] != "" && |parts| >= 2 && parts[1] != "" then Some((parts[1] + "/tcp", parts[0])) else None
  }

  /** The dictionary after the given entries, in order, each entry read by
      `parse`; the server uses `EntryBinding`. */
  function Bindings(entries: seq<string>, parse: string -> Option<(string, string)>): map<string, seq<HostBinding>> {
    if entries == [] then map[]
    else
      var m := Bindings(entries[..|entries| - 1], parse);
      var b := parse(entries[|entries| - 1]);
      if b.Some? then m[b.value.0 := [HostBinding(b.value.1)]] else m
  }

  /** The `forEach` over `port.split(',')`, skipped when `port` is falsy. */
  method PortBindings(port: Option<string>) returns (bindings: map<string, seq<HostBinding>>)
    ensures Truthy(port) ==> bindings == Bindings(Split(port.value, ','), EntryBinding)
    ensures !Truthy(port) ==> bindings == map[]
  {
    bindings := map[];
    if !Truthy(port) {
      return;
    }
    var entries := Split(port.value, ',');
    var i := 0;
    while i < |entries|
      invariant 0 <= i <= |entries|
      invariant bindings == Bindings(entries[..i], EntryBinding)
    {
      BindingsSnoc(entries, i, EntryBinding);
      var b := EntryBinding(entries[i]);
      if b.Some? {
        bindings := bindings[b.value.0 := [HostBinding(b.value.1)]];
      }
      i := i + 1;
    }
    assert entries[..i] == entries;
  }

  lemma BindingsSnoc(entries: seq<string>, i: nat, parse: string -> Option<(string, string)>)
    requires i < |entries|
    ensures Bindings(entries[..i + 1], parse) ==
      (var b := parse(entries[i]);
       if b.Some? then Bindings(entries[..i], parse)[b.value.0 := [HostBinding(b.value.1)]] else Bindings(entries[..i], parse))
  {
    assert entries[..i + 1][..i] == entries[..i];
  }

  /** Entry `e` binds `key`. */
  predicate Binds(parse: string -> Option<(string, string)>, e: string, key: string) {
    parse(e).Some? && parse(e).value.0 == key
  }

  /** A key is bound exactly when some entry names it. */
  lemma {:induction false} BindingsDomain(entries: seq<string>, key: string, parse: string -> Option<(string, string)>)
    ensures key in Bindings(entries, parse) <==> exists i :: 0 <= i < |entries| && Binds(parse, entries[i], key)
  {
    if entries != [] {
      var init := entries[..|entries| - 1];
      BindingsDomain(init, key, parse);
      assert forall i :: 0 <= i < |init| ==> entries[i] == init[i];
    }
  }

  /** Entry `i` is the last of `entries` that binds `key`. */
  predicate LastBinder(entries: seq<string>, key: string, parse: string -> Option<(string, string)>, i: int) {
    && 0 <= i < |entries| && Binds(parse, entries[i], key)
    && forall j :: i < j < |entries| ==> !Binds(parse, entries[j], key)
  }

  /** A bound key holds the host port of the last entry that names it. */
  lemma {:induction false} BindingsLastWins(entries: seq<string>, key: string, parse: string -> Option<(string, string)>)
    requires key in Bindings(entries, parse)
    ensures exists i :: (LastBinder(entries, key, parse, i)
                         && Bindings(entries, parse)[key] == [HostBinding(parse(entries[i]).value.1)])
  {
    var n := |entries| - 1;
    BindingsSnoc(entries, n, parse);
    assert entries[..n + 1] == entries;
    if Binds(parse, entries[n], key) {
      assert LastBinder(entries, key, parse, n);
    } else {
      BindingsLastWins(entries[..n], key, parse);
      var i :| LastBinder(entries[..n], key, parse, i)
        && Bindings(entries[..n], parse)[key] == [HostBinding(parse(entries[..n][i]).value.1)];
      LastBinderExtends(entries, key, parse, i);
    }
  }

  /** The last binder of all but the last entry stays the last binder when
      the last entry does not bind the key. */
  lemma LastBinderExtends(entries: seq<string>, key: string, parse: string -> Option<(string, string)>, i: int)
    requires entries != [] && !Binds(parse, entries[|entries| - 1], key)
    requires LastBinder(entries[..|entries| - 1], key, parse, i)
    ensures LastBinder(entries, key, parse, i) && entries[i] == entries[..|entries| - 1][i]
  {
    var n := |entries| - 1;
    forall j | i < j < |entries| ensures !Binds(parse, entries[j], key) {
      if j < n {
        assert entries[j] == entries[..n][j];
      }
    }
  }

  /** A clean `host:container` entry binds `container/tcp` to `host`. */
  lemma PairBinding(host: string, container: string)
    requires host != "" && container != "" && ':' !in host && ':' !in container
    requires IsTrimmed(host + ":" + container)
    ensures EntryBinding(host + ":" + container) == Some((container + "/tcp", host))
  {
    var e := host + ":" + container;
    assert e == host + [':'] + container;
    assert Trim(e) == e;
    SplitAppend(host, ':', container);
    SplitNoSeparator(host, ':');
    SplitNoSeparator(container, ':');
    var parts := Split(e, ':');
    assert parts == [host] + [container];
    assert parts[0] == host && parts[1] == container;
  }

  /** An entry whose host or container part is empty (`"80:"`, `":80"`,
      `":"`) is skipped. */
  lemma MissingPartSkipped(host: string, container: string)
    requires ':' !in host && ':' !in container && (host == "" || container == "")
    requires IsTrimmed(host + ":" + container)
    ensures EntryBinding(host + ":" + container) == None
  {
    var e := host + ":" + container;
    assert e == host + [':'] + container;
    assert Trim(e) == e;
    SplitAppend(host, ':', container);
    SplitNoSeparator(host, ':');
    SplitNoSeparator(container, ':');
    assert Split(e, ':') == [host] + [container];
  }

  /** An entry without `:` has no container part and is skipped. */
  lemma NoColonSkipped(entry: string)
    requires ':' !in Trim(entry)
    ensures EntryBinding(entry) == None
  {
    SplitNoSeparator(Trim(entry), ':');
  }

  // ---------------------------------------------------------------------
  // Resource limits

  const MiB := 1024 * 1024

  /** `Math.max(parseInt(swap || 0), parseInt(ram) + 1)`. */
  function CalculatedSwap(swap: Option<int>, ram: int): (r: int)
    ensures r >= ram + 1 && r >= swap.GetOr(0)
    ensures r == ram + 1 || r == swap.GetOr(0)
  {
    var s := swap.GetOr(0);
    if s > ram + 1 then s else ram + 1
  }

  datatype HostConfig = HostConfig(
    memory: int,
    memorySwap: int,
    cpuShares: int,
    portBindings: map<string, seq<HostBinding>>,
    networkMode: string)

  /** The fields of the create request that the derivations read. `config`
      stores these fields; `disk` and any other field of the body, which no
      derivation reads, are not modelled. */
  datatype CreateRequest = CreateRequest(
    name: string, image: string, hostname: Option<string>,
    ram: int, cores: int, swap: Option<int>,
    packages: Packages, port: Option<string>, network: Option<string>)

  /** What `docker.createContainer` receives. */
  datatype ContainerSpec = ContainerSpec(
    image: string, name: string, hostname: string, cmd: seq<string>, hostConfig: HostConfig)

  /** `HostConfig` of the create request: memory in bytes, swap at least
      one MiB above memory, 1024 CPU shares per core, `bridge` by default. */
  function MakeHostConfig(req: CreateRequest, bindings: map<string, seq<HostBinding>>): (r: HostConfig)
    ensures r.memory == req.ram * MiB
    ensures r.memorySwap == CalculatedSwap(req.swap, req.ram) * MiB
    ensures r.memorySwap >= r.memory + MiB
    ensures r.memorySwap >= req.swap.GetOr(0) * MiB
    ensures r.cpuShares == req.cores * 1024
    ensures Truthy(req.network) ==> r.networkMode == req.network.value
    ensures !Truthy(req.network) ==> r.networkMode == "bridge"
    ensures r.portBindings == bindings
  {
    HostConfig(req.ram * MiB, CalculatedSwap(req.swap, req.ram) * MiB, req.cores * 1024, bindings,
               OrElse(req.network, "bridge"))
  }

  /** The whole container specification of `/create-vm`. */
  method BuildSpec(req: CreateRequest, vmId: string) returns (spec: ContainerSpec)
    ensures spec.name == ContainerName(req.name, vmId)
    ensures Truthy(req.hostname) ==> spec.hostname == req.hostname.value
    ensures !Truthy(req.hostname) ==> spec.hostname == spec.name
    ensures spec.cmd == ["/bin/bash", "-c", Script(req.packages)]
    ensures spec.hostConfig == MakeHostConfig(req, if Truthy(req.port) then Bindings(Split(req.port.value, ','), EntryBinding) else map[])
    ensures spec.image == req.image
  {
    var name := ContainerName(req.name, vmId);
    var script := InstallScript(req.packages);
    var bindings := PortBindings(req.port);
    spec := ContainerSpec(req.image, name, OrElse(req.hostname, name), ["/bin/bash", "-c", script],
                          MakeHostConfig(req, bindings));
  }

  // ---------------------------------------------------------------------
  // Stored configurations and logs

  datatype VmRecord = VmRecord(name: string, created: string, config: CreateRequest)

  /** What Docker does with a create (or remove) call. */
  datatype DockerOutcome = Started(containerId: string) | DockerError(message: string)

  datatype CreateResult = CreateOk(id: string) | CreateFailed(status: nat, error: string)

  /** `{ success: true }`, or the 500 of a failed remove. */
  datatype DeleteResult = Deleted | DeleteFailed(status: nat, error: string)

  class VmRegistry {
    var configs: map<string, VmRecord>
    var logs: map<string, seq<string>>

    constructor(configs0: map<string, VmRecord>, logs0: map<string, seq<string>>)
      ensures configs == configs0 && logs == logs0
    {
      configs, logs := configs0, logs0;
    }

    /** `/create-vm`: after a successful create and start, `configs[id]`
        and an empty `logs[id]` are stored and nothing else changes. */
    method CreateVm(req: CreateRequest, vmId: string, docker: ContainerSpec -> DockerOutcome, now: string)
      returns (result: CreateResult)
      modifies this
      ensures
        var spec := ContainerSpec(req.image, ContainerName(req.name, vmId),
                                  OrElse(req.hostname, ContainerName(req.name, vmId)),
                                  ["/bin/bash", "-c", Script(req.packages)],
                                  MakeHostConfig(req, if Truthy(req.port) then Bindings(Split(req.port.value, ','), EntryBinding) else map[]));
        match docker(spec)
        case DockerError(e) => result == CreateFailed(500, e) && unchanged(this)
        case Started(id) =>
          && result == CreateOk(id)
          && configs == old(configs)[id := VmRecord(ContainerName(req.name, vmId), now, req)]
          && logs == old(logs)[id := []]
    {
      var spec := BuildSpec(req, vmId);
      var outcome := docker(spec);
      if outcome.DockerError? {
        return CreateFailed(500, outcome.message);
      }
      var id := outcome.containerId;
      configs := configs[id := VmRecord(spec.name, now, req)];
      logs := logs[id := []];
      result := CreateOk(id);
    }

    /** `/delete-container/:id`; `removeError` is the failure of the forced
        remove, if any. Both entries of `id` go and nothing else changes. */
    method DeleteVm(id: string, removeError: Option<string>) returns (result: DeleteResult)
      modifies this
      ensures removeError.Some? ==> result == DeleteFailed(500, removeError.value) && unchanged(this)
      ensures removeError.None? ==>
        result == Deleted && configs == old(configs) - {id} && logs == old(logs) - {id}
    {
      if removeError.Some? {
        return DeleteFailed(500, removeError.value);
      }
      configs := configs - {id};
      logs := logs - {id};
      result := Deleted;
    }

    /** A terminal message is appended to the log of its container, which
        is created when absent. */
    method AppendLog(containerId: string, msg: string)
      modifies this
      ensures containerId in old(logs) ==> logs == old(logs)[containerId := old(logs)[containerId] + [msg]]
      ensures containerId !in old(logs) ==> logs == old(logs)[containerId := [msg]]
      ensures configs == old(configs)
    {
      var log: seq<string> := if containerId in logs then logs[containerId] else [];
      assert [] + [msg] == [msg];
      logs := logs[containerId := log + [msg]];
    }
  }
}
