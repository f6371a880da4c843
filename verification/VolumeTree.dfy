/** The file tree a published volume holds. */
module VolumeTree {
  import opened Kube

  // ---------------------------------------------------------------- decimal text

  function Digits(n: nat): string {
    var last := [(n % 10 + '0' as int) as char];
    if n < 10 then last else Digits(n / 10) + last
  }

  /** Go's `strconv.Itoa`. */
  function Itoa(n: int): string {
    if n < 0 then "-" + Digits(-n) else Digits(n)
  }

  function ParseDigits(s: string): int {
    if s == "" then 0 else ParseDigits(s[..|s| - 1]) * 10 + (s[|s| - 1] as int - '0' as int)
  }

  function Atoi(s: string): int {
    if s != "" && s[0] == '-' then -ParseDigits(s[1..]) else ParseDigits(s)
  }

  lemma {:induction false} DigitsRoundTrip(n: nat)
    ensures ParseDigits(Digits(n)) == n && Digits(n) != "" && '-' !in Digits(n)
  {
    var last := [(n % 10 + '0' as int) as char];
    if n < 10 {
      assert last[..0] == "";
    } else {
      DigitsRoundTrip(n / 10);
      assert (Digits(n / 10) + last)[..|Digits(n)| - 1] == Digits(n / 10);
    }
  }

  lemma ItoaRoundTrip(n: int)
    ensures Atoi(Itoa(n)) == n
  {
    DigitsRoundTrip(if n < 0 then -n else n);
    if n < 0 {
      assert Itoa(n)[1..] == Digits(-n);
    } else {
      assert Digits(n)[0] in Digits(n);
    }
  }

  lemma {:induction false} DigitsAreCanonical(n: nat)
    ensures forall c :: c in Digits(n) ==> '0' <= c <= '9'
    ensures Digits(n) != "" && (Digits(n)[0] == '0' <==> n == 0) && (n == 0 ==> Digits(n) == "0")
  {
    if n >= 10 {
      DigitsAreCanonical(n / 10);
    }
  }

  /** Digits only, without leading zeros, after a minus sign for a negative number and for no other. */
  lemma ItoaIsCanonical(n: int)
    ensures var digits := if n < 0 then Itoa(n)[1..] else Itoa(n);
            && (n < 0 ==> Itoa(n)[0] == '-')
            && digits != "" && (forall c :: c in digits ==> '0' <= c <= '9') && (digits[0] == '0' ==> digits == "0")
  {
    DigitsAreCanonical(if n < 0 then -n else n);
    if n < 0 {
      assert Itoa(n)[1..] == Digits(-n);
    }
  }

  // ---------------------------------------------------------------- paths

  /** A clean absolute path, by its components. */
  type Path = seq<string>

  predicate Single(c: string) {
    c != "" && c != "." && c != ".." && '/' !in c
  }

  function Split(s: string): (parts: seq<string>)
    ensures parts != []
  {
    if s == "" then [""]
    else
      var rest := Split(s[1..]);
      if s[0] == '/' then [""] + rest else [[s[0]] + rest[0]] + rest[1..]
  }

  function Walk(p: Path, parts: seq<string>): Path
    decreases parts
  {
    if parts == [] then p
    else if parts[0] == "" || parts[0] == "." then Walk(p, parts[1..])
    else if parts[0] == ".." then Walk(if p == [] then [] else p[..|p| - 1], parts[1..])
    else Walk(p + [parts[0]], parts[1..])
  }

  /** Go's `filepath.Join` of a clean path and any text. */
  function Join(p: Path, s: string): Path {
    Walk(p, Split(s))
  }

  lemma {:induction false} SplitSingle(c: string)
    requires '/' !in c
    ensures Split(c) == [c]
  {
    if c != "" {
      SplitSingle(c[1..]);
      assert [c[0]] + c[1..] == c;
    }
  }

  lemma {:induction false} SplitSlash(c: string, s: string)
    requires '/' !in c
    ensures Split(c + "/" + s) == [c] + Split(s)
  {
    var text := c + "/" + s;
    if c == "" {
      assert text[1..] == s;
    } else {
      assert text[1..] == c[1..] + "/" + s;
      SplitSlash(c[1..], s);
      assert [c[0]] + c[1..] == c;
    }
  }

  lemma JoinSingle(p: Path, c: string)
    requires Single(c)
    ensures Join(p, c) == p + [c]
  {
    SplitSingle(c);
    assert Walk(p, [c]) == Walk(p + [c], [c][1..]);
  }

  lemma JoinTwo(p: Path, c: string, d: string)
    requires Single(c) && Single(d)
    ensures Join(p, c + "/" + d) == p + [c, d]
  {
    SplitSlash(c, d);
    SplitSingle(d);
    assert [c] + [d] == [c, d];
    assert Walk(p, [c, d]) == Walk(p + [c], [c, d][1..]);
    assert [c, d][1..] == [d];
    assert Walk(p + [c], [d]) == Walk(p + [c] + [d], [d][1..]);
    assert p + [c] + [d] == p + [c, d];
  }

  function RenderTail(p: Path): string {
    if p == [] then "" else RenderTail(p[..|p| - 1]) + "/" + p[|p| - 1]
  }

  function Render(p: Path): string {
    if p == [] then "/" else RenderTail(p)
  }

  function TrimPrefix(s: string, prefix: string): string {
    if prefix <= s then s[|prefix|..] else s
  }

  function DefaultLink(address: string): string {
    "addresses" + "/" + address
  }

  /** The text `symlinkToDefaultAddress` puts in the link. */
  function LinkText(address: Path, target: Path): string {
    TrimPrefix(TrimPrefix(Render(address), Render(target)), "/")
  }

  lemma LinkTextIsRelative(target: Path, c: string, d: string)
    requires Single(c) && Single(d)
    ensures LinkText(target + [c, d], target) == c + "/" + d
  {
    var p := target + [c, d];
    var tail := "/" + c + "/" + d;
    assert p[..|p| - 1] == target + [c];
    assert (target + [c])[..|target|] == target;
    assert RenderTail(target + [c]) == RenderTail(target) + "/" + c;
    assert Render(p) == RenderTail(target) + tail;
    assert tail[1..] == c + "/" + d;
    if target == [] {
      assert Render(p) == tail;
      assert (c + "/" + d)[0] == c[0] != '/';
    } else {
      assert TrimPrefix(Render(p), Render(target)) == tail;
    }
  }

  // ---------------------------------------------------------------- the file system

  datatype Node = Dir | File(content: string) | Link(target: string)

  type Tree = map<Path, Node>

  predicate DirsTo(t: Tree, p: Path) {
    forall i :: 0 <= i <= |p| ==> p[..i] in t && t[p[..i]].Dir?
  }

  function Prefixes(p: Path): set<Path> {
    set i | 0 <= i <= |p| :: p[..i]
  }

  function MkdirAll(t: Tree, p: Path): Result<Tree> {
    if exists i :: 0 <= i <= |p| && p[..i] in t && !t[p[..i]].Dir? then Err("not a directory")
    else Ok(t + map q | q in Prefixes(p) :: Dir)
  }

  function WriteFile(t: Tree, p: Path, content: string): Result<Tree> {
    if p == [] || p[..|p| - 1] !in t || !t[p[..|p| - 1]].Dir? then Err("no such directory")
    else if p in t && t[p].Dir? then Err("is a directory")
    else Ok(t[p := File(content)])
  }

  function Symlink(t: Tree, text: string, p: Path): Result<Tree> {
    if text == "" || p == [] || p in t || p[..|p| - 1] !in t || !t[p[..|p| - 1]].Dir? then Err("cannot link")
    else Ok(t[p := Link(text)])
  }

  lemma MkdirOne(t: Tree, p: Path, c: string)
    requires DirsTo(t, p) && (p + [c] in t ==> t[p + [c]].Dir?)
    ensures MkdirAll(t, p + [c]) == Ok(t[p + [c] := Dir])
    ensures DirsTo(t[p + [c] := Dir], p + [c])
  {
    var q := p + [c];
    assert forall i :: 0 <= i <= |p| ==> q[..i] == p[..i];
    assert q[..|q|] == q;
    assert q in Prefixes(q);
    assert t + (map x | x in Prefixes(q) :: Dir) == t[q := Dir];
  }

  // ---------------------------------------------------------------- writeData

  /** What a volume says: the ports of each address. */
  type Content = map<string, map<string, int>>

  function PortPaths(dir: Path, names: set<string>): set<Path> {
    set n | n in names :: dir + ["ports", n]
  }

  function PortFiles(dir: Path, names: set<string>, ports: map<string, int>): Tree
    requires names <= ports.Keys
  {
    map p | p in PortPaths(dir, names) :: File(Itoa(ports[p[|dir| + 1]]))
  }

  /** The files of one address directory. */
  function AddressFiles(dir: Path, d: IngressAddress): Tree {
    map[dir + ["address"] := File(d.address), dir + ["ports"] := Dir] + PortFiles(dir, d.ports.Keys, d.ports)
  }

  /** Nothing in the way of an address directory's files. */
  ghost predicate NoConflict(t: Tree, dir: Path) {
    && (dir + ["address"] in t ==> !t[dir + ["address"]].Dir?)
    && (dir + ["ports"] in t ==> t[dir + ["ports"]].Dir?)
    && (forall n :: dir + ["ports", n] in t ==> !t[dir + ["ports", n]].Dir?)
  }

  predicate TidyEntry(d: IngressAddress) {
    Single(d.address) && forall n :: n in d.ports ==> Single(n)
  }

  /** Addresses and port names that are single path components, as IP addresses, DNS names and port names are. */
  predicate Tidy(data: seq<IngressAddress>) {
    data != [] && forall i :: 0 <= i < |data| ==> TidyEntry(data[i])
  }

  class Volume {
    var tree: Tree

    constructor (t: Tree)
      ensures tree == t
    {
      tree := t;
    }

    /** One port file per name, in whatever order the map gives the names. */
    method WritePorts(dir: Path, ports: map<string, int>) returns (ok: bool)
      modifies this
      ensures (forall n :: n in ports ==> Single(n)) && DirsTo(old(tree), dir + ["ports"]) && NoConflict(old(tree), dir)
              ==> ok && tree == old(tree) + PortFiles(dir, ports.Keys, ports)
    {
      var rest := ports.Keys;
      ghost var tidy := (forall n :: n in ports ==> Single(n)) && DirsTo(tree, dir + ["ports"]) && NoConflict(tree, dir);
      while rest != {}
        invariant rest <= ports.Keys
        invariant tidy ==> tree == old(tree) + PortFiles(dir, ports.Keys - rest, ports)
        decreases rest
      {
        var name :| name in rest;
        var written := WriteFile(tree, Join(dir + ["ports"], name), Itoa(ports[name]));
        ghost var done := ports.Keys - rest;
        if tidy {
          PortFileFits(old(tree), dir, ports, done, name);
        }
        if written.Err? {
          return false;
        }
        tree := written.value;
        rest := rest - {name};
        assert ports.Keys - rest == done + {name};
      }
      assert ports.Keys - rest == ports.Keys;
      return true;
    }

    method WriteAddress(dir: Path, d: IngressAddress) returns (ok: bool)
      modifies this
      ensures TidyEntry(d) && DirsTo(old(tree), dir) && NoConflict(old(tree), dir)
              ==> ok && tree == old(tree) + AddressFiles(dir, d)
    {
      ghost var tidy := TidyEntry(d) && DirsTo(tree, dir) && NoConflict(tree, dir);
      var written := WriteFile(tree, Join(dir, "address"), d.address);
      if tidy {
        AddressFileFits(tree, dir, d);
        PortsDirFits(tree[dir + ["address"] := File(d.address)], dir);
        AddressFilesTogether(tree, dir, d);
      }
      if written.Err? {
        return false;
      }
      tree := written.value;
      var made := MkdirAll(tree, Join(dir, "ports"));
      if made.Err? {
        return false;
      }
      tree := made.value;
      ok := WritePorts(dir, d.ports);
    }

    /** One turn of the loop over the data: make the directory, fill it. */
    method WriteEntry(ghost base: Tree, ghost target: Path, ghost c: Content, dir: Path, d: IngressAddress) returns (ok: bool)
      modifies this
      ensures IsVolume(base, old(tree), target, c, None) && TidyEntry(d) && dir == Join(target + ["addresses"], d.address) ==>
                && ok && dir == target + ["addresses", d.address]
                && IsVolume(base, tree, target, AddEntry(c, d), None)
    {
      if IsVolume(base, tree, target, c, None) && TidyEntry(d) {
        EntryFits(base, tree, target, c, d);
      }
      var made := MkdirAll(tree, dir);
      if made.Err? {
        return false;
      }
      tree := made.value;
      ok := WriteAddress(dir, d);
    }

    /** The loop over the data; `latest` is the directory made last. */
    method WriteEntries(ghost base: Tree, target: Path, data: seq<IngressAddress>) returns (ok: bool, latest: Path)
      modifies this
      ensures Tidy(data) && IsVolume(base, old(tree), target, map[], None) ==>
                && ok && latest == target + ["addresses", data[|data| - 1].address]
                && IsVolume(base, tree, target, Merged(data), None)
    {
      ghost var tidy := Tidy(data) && IsVolume(base, tree, target, map[], None);
      latest := [];
      for i := 0 to |data|
        invariant tidy ==> IsVolume(base, tree, target, Merged(data[..i]), None)
        invariant tidy && i > 0 ==> latest == target + ["addresses", data[i - 1].address]
      {
        assert data[..i + 1][..i] == data[..i];
        latest := Join(target + ["addresses"], data[i].address);
        ok := WriteEntry(base, target, Merged(data[..i]), latest, data[i]);
        if !ok {
          return;
        }
      }
      assert data[..|data|] == data;
      ok := true;
    }

    /** The whole volume; no data is an error that leaves the tree alone. */
    method WriteData(target: Path, data: seq<IngressAddress>) returns (ok: bool)
      modifies this
      ensures data == [] ==> !ok && tree == old(tree)
      ensures Tidy(data) && EmptyMount(old(tree), target) ==>
                ok && IsVolume(old(tree), tree, target, Merged(data), Some(DefaultLink(data[|data| - 1].address)))
    {
      if data == [] {
        return false;
      }
      JoinSingle(target, "addresses");
      if EmptyMount(tree, target) {
        FirstDirFits(tree, target);
      }
      var made := MkdirAll(tree, Join(target, "addresses"));
      if made.Err? {
        return false;
      }
      tree := made.value;
      var latest: Path;
      ok, latest := WriteEntries(old(tree), target, data);
      if ok {
        ok := SymlinkToDefaultAddress(old(tree), Merged(data), data[|data| - 1].address, latest, target);
      }
    }

    method SymlinkToDefaultAddress(ghost base: Tree, ghost c: Content, ghost address: string, latest: Path, target: Path)
      returns (ok: bool)
      modifies this
      ensures IsVolume(base, old(tree), target, c, None) && Single(address) && latest == target + ["addresses", address] ==>
                ok && IsVolume(base, tree, target, c, Some(DefaultLink(address)))
    {
      if IsVolume(base, tree, target, c, None) && Single(address) && latest == target + ["addresses", address] {
        LinkPaths(target, address);
        LinkFits(base, tree, target, c, DefaultLink(address));
        LinkedIsVolume(base, tree, target, c, DefaultLink(address));
      }
      var linked := Symlink(tree, LinkText(latest, target), Join(target, "default-address"));
      if linked.Err? {
        return false;
      }
      tree := linked.value;
      return true;
    }
  }

  lemma PortFileFits(t: Tree, dir: Path, ports: map<string, int>, done: set<string>, name: string)
    requires (forall n :: n in ports ==> Single(n)) && DirsTo(t, dir + ["ports"]) && NoConflict(t, dir)
    requires done <= ports.Keys && name in ports
    ensures WriteFile(t + PortFiles(dir, done, ports), Join(dir + ["ports"], name), Itoa(ports[name])) ==
            Ok(t + PortFiles(dir, done + {name}, ports))
  {
    var before, after := t + PortFiles(dir, done, ports), t + PortFiles(dir, done + {name}, ports);
    var p := dir + ["ports", name];
    JoinSingle(dir + ["ports"], name);
    assert dir + ["ports"] + [name] == p;
    assert p[..|p| - 1] == dir + ["ports"];
    assert (dir + ["ports"])[..|dir| + 1] == dir + ["ports"];
    assert p[|dir| + 1] == name;
    assert before[dir + ["ports"]] == Dir;
    assert PortPaths(dir, done + {name}) == PortPaths(dir, done) + {p};
    assert before[p := File(Itoa(ports[name]))] == after;
  }

  lemma AddressFilesTogether(t: Tree, dir: Path, d: IngressAddress)
    ensures t[dir + ["address"] := File(d.address)][dir + ["ports"] := Dir] + PortFiles(dir, d.ports.Keys, d.ports)
            == t + AddressFiles(dir, d)
  {
  }

  lemma PortsDirFits(t: Tree, dir: Path)
    requires DirsTo(t, dir) && NoConflict(t, dir)
    ensures var made := t[dir + ["ports"] := Dir];
            MkdirAll(t, Join(dir, "ports")) == Ok(made) && DirsTo(made, dir + ["ports"]) && NoConflict(made, dir)
  {
    JoinSingle(dir, "ports");
    MkdirOne(t, dir, "ports");
    assert forall n :: |dir + ["ports", n]| != |dir + ["ports"]|;
    assert (dir + ["ports"])[|dir|] != (dir + ["address"])[|dir|];
  }

  lemma AddressFileFits(t: Tree, dir: Path, d: IngressAddress)
    requires DirsTo(t, dir) && NoConflict(t, dir)
    ensures var written := t[dir + ["address"] := File(d.address)];
            WriteFile(t, Join(dir, "address"), d.address) == Ok(written) && DirsTo(written, dir) && NoConflict(written, dir)
  {
    JoinSingle(dir, "address");
    assert (dir + ["address"])[..|dir|] == dir && dir[..|dir|] == dir;
    assert forall i :: 0 <= i <= |dir| ==> |dir[..i]| != |dir + ["address"]|;
    assert forall n :: |dir + ["ports", n]| != |dir + ["address"]|;
    assert (dir + ["ports"])[|dir|] != (dir + ["address"])[|dir|];
  }

  // ---------------------------------------------------------------- the image of a volume

  function Lookup(t: Tree, p: Path): Option<Node> {
    if p in t then Some(t[p]) else None
  }

  /** A later entry for the same address adds its ports to the ones that are there. */
  function AddEntry(c: Content, d: IngressAddress): Content {
    c[d.address := (if d.address in c then c[d.address] else map[]) + d.ports]
  }

  function Merged(data: seq<IngressAddress>): Content {
    if data == [] then map[] else AddEntry(Merged(data[..|data| - 1]), data[|data| - 1])
  }

  function ImageAt(c: Content, r: Path): Option<Node> {
    if r == [] || r == ["addresses"] then Some(Dir)
    else if |r| >= 2 && r[0] == "addresses" && r[1] in c then
      if |r| == 2 then Some(Dir)
      else if |r| == 3 && r[2] == "address" then Some(File(r[1]))
      else if |r| == 3 && r[2] == "ports" then Some(Dir)
      else if |r| == 4 && r[2] == "ports" && r[3] in c[r[1]] then Some(File(Itoa(c[r[1]][r[3]])))
      else None
    else None
  }

  /** The target path is an empty directory. */
  ghost predicate EmptyMount(t: Tree, target: Path) {
    DirsTo(t, target) && forall p :: p in t && target <= p ==> p == target
  }

  /** Under the target path there is exactly the given content, and elsewhere nothing has changed. */
  ghost predicate IsVolume(base: Tree, t: Tree, target: Path, c: Content, link: Option<string>) {
    && DirsTo(base, target)
    && (forall r: Path :: HoldsAt(t, target, c, link, r))
    && (forall p: Path :: KeptAt(base, t, target, p))
  }

  predicate HoldsAt(t: Tree, target: Path, c: Content, link: Option<string>, r: Path) {
    Lookup(t, target + r) == if r == ["default-address"] && link.Some? then Some(Link(link.value)) else ImageAt(c, r)
  }

  predicate KeptAt(base: Tree, t: Tree, target: Path, p: Path) {
    !(target <= p) ==> Lookup(t, p) == Lookup(base, p)
  }

  lemma FirstDirFits(t: Tree, target: Path)
    requires EmptyMount(t, target)
    ensures MkdirAll(t, target + ["addresses"]) == Ok(t[target + ["addresses"] := Dir])
    ensures IsVolume(t, t[target + ["addresses"] := Dir], target, map[], None)
  {
    var made := t[target + ["addresses"] := Dir];
    MkdirOne(t, target, "addresses");
    assert target[..|target|] == target;
    forall r: Path
      ensures HoldsAt(made, target, map[], None, r)
    {
      assert (target + r)[|target|..] == r;
      assert target + [] == target;
      assert (target + ["addresses"])[|target|..] == ["addresses"];
    }
  }

  function SuffixAt(d: IngressAddress, s: Path): Option<Node> {
    if s == ["address"] then Some(File(d.address))
    else if s == ["ports"] then Some(Dir)
    else if |s| == 2 && s[0] == "ports" && s[1] in d.ports then Some(File(Itoa(d.ports[s[1]])))
    else None
  }

  lemma AddressFilesAt(dir: Path, d: IngressAddress, s: Path)
    ensures Lookup(AddressFiles(dir, d), dir + s) == SuffixAt(d, s)
    ensures forall p :: p in AddressFiles(dir, d) ==> dir <= p
  {
    assert (dir + s)[|dir|..] == s;
    assert (dir + ["address"])[|dir|..] == ["address"] && (dir + ["ports"])[|dir|..] == ["ports"];
    if |s| == 2 && s[0] == "ports" && s[1] in d.ports {
      assert s == ["ports", s[1]];
      assert dir + s in PortPaths(dir, d.ports.Keys);
    }
    assert forall n :: n in d.ports ==> (dir + ["ports", n])[|dir|..] == ["ports", n];
  }

  lemma VolumeDirs(base: Tree, t: Tree, target: Path, c: Content)
    requires IsVolume(base, t, target, c, None)
    ensures DirsTo(t, target) && DirsTo(t, target + ["addresses"])
  {
    var p := target + ["addresses"];
    forall i | 0 <= i <= |target|
      ensures target[..i] in t && t[target[..i]].Dir? && p[..i] == target[..i]
    {
      if i == |target| {
        assert target[..i] == target + [];
        assert HoldsAt(t, target, c, None, []);
      } else {
        assert KeptAt(base, t, target, target[..i]);
      }
    }
    assert p[..|p|] == p;
    assert HoldsAt(t, target, c, None, ["addresses"]);
  }

  lemma EntryHasNoConflict(t: Tree, target: Path, c: Content, a: string)
    requires forall r: Path :: HoldsAt(t, target, c, None, r)
    ensures NoConflict(t, target + ["addresses", a])
  {
    var dir := target + ["addresses", a];
    assert dir + ["address"] == target + ["addresses", a, "address"];
    assert HoldsAt(t, target, c, None, ["addresses", a, "address"]);
    assert dir + ["ports"] == target + ["addresses", a, "ports"];
    assert HoldsAt(t, target, c, None, ["addresses", a, "ports"]);
    forall n | dir + ["ports", n] in t
      ensures !t[dir + ["ports", n]].Dir?
    {
      assert dir + ["ports", n] == target + ["addresses", a, "ports", n];
      assert HoldsAt(t, target, c, None, ["addresses", a, "ports", n]);
    }
  }

  lemma EntryDirFits(base: Tree, t: Tree, target: Path, c: Content, a: string)
    requires IsVolume(base, t, target, c, None) && Single(a)
    ensures var dir := target + ["addresses", a];
            && Join(target + ["addresses"], a) == dir
            && MkdirAll(t, dir) == Ok(t[dir := Dir])
            && DirsTo(t[dir := Dir], dir) && NoConflict(t[dir := Dir], dir)
  {
    var dir := target + ["addresses", a];
    JoinSingle(target + ["addresses"], a);
    VolumeDirs(base, t, target, c);
    assert target + ["addresses"] + [a] == dir;
    assert HoldsAt(t, target, c, None, ["addresses", a]);
    MkdirOne(t, target + ["addresses"], a);
    EntryHasNoConflict(t, target, c, a);
    assert |dir + ["address"]| != |dir| && |dir + ["ports"]| != |dir|;
    assert forall n :: |dir + ["ports", n]| != |dir|;
  }

  /** How one more entry changes the image, within its own directory. */
  lemma EntryImage(c: Content, d: IngressAddress, s: Path)
    ensures ImageAt(AddEntry(c, d), ["addresses", d.address] + s) ==
            if SuffixAt(d, s).Some? then SuffixAt(d, s)
            else if s == [] then Some(Dir)
            else ImageAt(c, ["addresses", d.address] + s)
  {
  }

  lemma EntryImageInside(t: Tree, target: Path, c: Content, d: IngressAddress, s: Path)
    requires HoldsAt(t, target, c, None, ["addresses", d.address] + s)
    ensures var dir := target + ["addresses", d.address];
            HoldsAt(t[dir := Dir] + AddressFiles(dir, d), target, AddEntry(c, d), None, ["addresses", d.address] + s)
  {
    var dir := target + ["addresses", d.address];
    assert target + (["addresses", d.address] + s) == dir + s;
    AddressFilesAt(dir, d, s);
    EntryImage(c, d, s);
    assert s != [] ==> |dir + s| != |dir|;
    assert s == [] ==> dir + s == dir;
  }

  lemma EntryImageAt(t: Tree, target: Path, c: Content, d: IngressAddress, r: Path)
    requires HoldsAt(t, target, c, None, r)
    ensures var dir := target + ["addresses", d.address];
            HoldsAt(t[dir := Dir] + AddressFiles(dir, d), target, AddEntry(c, d), None, r)
  {
    var head := ["addresses", d.address];
    if head <= r {
      assert r == head + r[2..];
      EntryImageInside(t, target, c, d, r[2..]);
    } else {
      EntryImageOutside(t, target, c, d, r);
    }
  }

  lemma EntryImageOutside(t: Tree, target: Path, c: Content, d: IngressAddress, r: Path)
    requires HoldsAt(t, target, c, None, r) && !(["addresses", d.address] <= r)
    ensures var dir := target + ["addresses", d.address];
            HoldsAt(t[dir := Dir] + AddressFiles(dir, d), target, AddEntry(c, d), None, r)
  {
    OutsideEntry(target, ["addresses", d.address], r);
    LookupOutside(t, target + ["addresses", d.address], d, target + r);
    ImageOutside(c, d, r);
  }

  lemma LookupOutside(t: Tree, dir: Path, d: IngressAddress, p: Path)
    requires !(dir <= p)
    ensures Lookup(t[dir := Dir] + AddressFiles(dir, d), p) == Lookup(t, p)
  {
  }

  lemma ImageOutside(c: Content, d: IngressAddress, r: Path)
    requires !(["addresses", d.address] <= r)
    ensures ImageAt(AddEntry(c, d), r) == ImageAt(c, r)
  {
  }

  lemma OutsideEntry(target: Path, head: Path, r: Path)
    ensures target + head <= target + r ==> head <= r
  {
    if target + head <= target + r {
      assert forall i :: 0 <= i < |head| ==> head[i] == (target + head)[|target| + i] == (target + r)[|target| + i] == r[i];
    }
  }

  lemma EntryFits(base: Tree, t: Tree, target: Path, c: Content, d: IngressAddress)
    requires IsVolume(base, t, target, c, None) && TidyEntry(d)
    ensures var dir := target + ["addresses", d.address];
            && Join(target + ["addresses"], d.address) == dir
            && MkdirAll(t, dir) == Ok(t[dir := Dir])
            && DirsTo(t[dir := Dir], dir) && NoConflict(t[dir := Dir], dir)
            && IsVolume(base, t[dir := Dir] + AddressFiles(dir, d), target, AddEntry(c, d), None)
  {
    EntryDirFits(base, t, target, c, d.address);
    var dir := target + ["addresses", d.address];
    var after := t[dir := Dir] + AddressFiles(dir, d);
    forall r: Path
      ensures HoldsAt(after, target, AddEntry(c, d), None, r)
    {
      assert HoldsAt(t, target, c, None, r);
      EntryImageAt(t, target, c, d, r);
    }
    forall p: Path
      ensures KeptAt(base, after, target, p)
    {
      assert KeptAt(base, t, target, p);
      if !(target <= p) {
        LookupOutside(t, dir, d, p);
      }
    }
  }

  lemma LinkedIsVolume(base: Tree, t: Tree, target: Path, c: Content, text: string)
    requires IsVolume(base, t, target, c, None)
    ensures IsVolume(base, t[target + ["default-address"] := Link(text)], target, c, Some(text))
  {
    var p := target + ["default-address"];
    var linked := t[p := Link(text)];
    forall r: Path
      ensures HoldsAt(linked, target, c, Some(text), r)
    {
      assert HoldsAt(t, target, c, None, r);
      assert (target + r)[|target|..] == r && p[|target|..] == ["default-address"];
    }
    forall q: Path
      ensures KeptAt(base, linked, target, q)
    {
      assert KeptAt(base, t, target, q);
    }
  }

  lemma LinkPaths(target: Path, a: string)
    requires Single(a)
    ensures Join(target, "default-address") == target + ["default-address"]
    ensures LinkText(target + ["addresses", a], target) == DefaultLink(a)
  {
    JoinSingle(target, "default-address");
    LinkTextIsRelative(target, "addresses", a);
  }

  lemma LinkFits(base: Tree, t: Tree, target: Path, c: Content, text: string)
    requires IsVolume(base, t, target, c, None) && text != ""
    ensures var p := target + ["default-address"];
            Symlink(t, text, p) == Ok(t[p := Link(text)])
  {
    var p := target + ["default-address"];
    VolumeDirs(base, t, target, c);
    assert p[..|p| - 1] == target && target[..|target|] == target;
    assert HoldsAt(t, target, c, None, ["default-address"]);
  }

  // ---------------------------------------------------------------- reading it back

  /** The names under a directory. */
  function Names(t: Tree, dir: Path): set<string> {
    set p | p in t && |p| == |dir| + 1 && dir <= p :: p[|dir|]
  }

  function ReadPort(t: Tree, p: Path): int {
    if p in t && t[p].File? then Atoi(t[p].content) else 0
  }

  /** What a pod sees: every address directory with the numbers in its port files. */
  function ReadVolume(t: Tree, target: Path): Content {
    map a | a in Names(t, target + ["addresses"]) ::
      map n | n in Names(t, target + ["addresses", a, "ports"]) :: ReadPort(t, target + ["addresses", a, "ports", n])
  }

  /** Where a relative link leads, from the directory it is in. */
  function Follow(t: Tree, link: Path): Option<Path> {
    if link != [] && link in t && t[link].Link? then Some(Join(link[..|link| - 1], t[link].target)) else None
  }

  lemma NamesOf(base: Tree, t: Tree, target: Path, c: Content, link: Option<string>, r: Path, n: string)
    requires IsVolume(base, t, target, c, link) && r != []
    ensures n in Names(t, target + r) <==> ImageAt(c, r + [n]).Some?
  {
    var p := target + r + [n];
    assert p == target + (r + [n]);
    assert HoldsAt(t, target, c, link, r + [n]);
    if n in Names(t, target + r) {
      var q :| q in t && |q| == |target + r| + 1 && target + r <= q && q[|target + r|] == n;
      assert q == p;
    }
    assert |p| == |target + r| + 1 && target + r <= p && p[|target + r|] == n;
  }

  lemma PortsReadBack(base: Tree, t: Tree, target: Path, c: Content, link: Option<string>, a: string)
    requires IsVolume(base, t, target, c, link) && a in c
    ensures (map n | n in Names(t, target + ["addresses", a, "ports"]) :: ReadPort(t, target + ["addresses", a, "ports", n])) == c[a]
  {
    var r := ["addresses", a, "ports"];
    forall n
      ensures n in Names(t, target + r) <==> n in c[a]
      ensures n in c[a] ==> ReadPort(t, target + ["addresses", a, "ports", n]) == c[a][n]
    {
      NamesOf(base, t, target, c, link, r, n);
      assert r + [n] == ["addresses", a, "ports", n];
      assert HoldsAt(t, target, c, link, ["addresses", a, "ports", n]);
      if n in c[a] {
        ItoaRoundTrip(c[a][n]);
      }
    }
  }

  /**
   * Reading a volume gives its content back, each address directory names its address, and `default-address` leads
   * to the directory it was made for.
   */
  lemma VolumeReadsBack(base: Tree, t: Tree, target: Path, c: Content, a: string)
    requires IsVolume(base, t, target, c, Some(DefaultLink(a))) && Single(a)
    ensures ReadVolume(t, target) == c
    ensures forall b :: b in c ==> Lookup(t, target + ["addresses", b, "address"]) == Some(File(b))
    ensures Follow(t, target + ["default-address"]) == Some(target + ["addresses", a])
  {
    var link := Some(DefaultLink(a));
    forall b
      ensures b in Names(t, target + ["addresses"]) <==> b in c
      ensures b in c ==> Lookup(t, target + ["addresses", b, "address"]) == Some(File(b))
    {
      NamesOf(base, t, target, c, link, ["addresses"], b);
      assert ["addresses"] + [b] == ["addresses", b];
      assert HoldsAt(t, target, c, link, ["addresses", b, "address"]);
    }
    forall b | b in c
      ensures ReadVolume(t, target)[b] == c[b]
    {
      PortsReadBack(base, t, target, c, link, b);
    }
    var p := target + ["default-address"];
    assert HoldsAt(t, target, c, link, ["default-address"]);
    assert p[..|p| - 1] == target;
    JoinTwo(target, "addresses", a);
  }

  // ---------------------------------------------------------------- repeated addresses

  function LastWins(data: seq<IngressAddress>): Content {
    if data == [] then map[] else LastWins(data[..|data| - 1])[data[|data| - 1].address := data[|data| - 1].ports]
  }

  lemma {:induction false} MergedCovers(data: seq<IngressAddress>, i: nat)
    requires i < |data|
    ensures data[i].address in Merged(data) && data[i].ports.Keys <= Merged(data)[data[i].address].Keys
  {
    if i < |data| - 1 {
      MergedCovers(data[..|data| - 1], i);
    }
  }

  lemma {:induction false} MergedComesFrom(data: seq<IngressAddress>, a: string, n: string) returns (i: nat)
    requires a in Merged(data) && n in Merged(data)[a]
    ensures i < |data| && data[i].address == a && n in data[i].ports
  {
    i := |data| - 1;
    if !(data[i].address == a && n in data[i].ports) {
      i := MergedComesFrom(data[..|data| - 1], a, n);
    }
  }

  lemma {:induction false} MergedExtendsLastWins(data: seq<IngressAddress>)
    ensures Merged(data).Keys == LastWins(data).Keys
    ensures forall a, n :: a in LastWins(data) && n in LastWins(data)[a] ==>
              n in Merged(data)[a] && Merged(data)[a][n] == LastWins(data)[a][n]
  {
    if data != [] {
      MergedExtendsLastWins(data[..|data| - 1]);
    }
  }

  /**
   * Port files of an earlier entry are not removed when its address comes again. So the volume says what the last
   * entry of each address says exactly when no earlier entry of that address has a name the last one lacks.
   */
  lemma MergedIsLastWins(data: seq<IngressAddress>)
    ensures Merged(data) == LastWins(data) <==>
            forall i :: 0 <= i < |data| ==>
              data[i].address in LastWins(data) && data[i].ports.Keys <= LastWins(data)[data[i].address].Keys
  {
    MergedExtendsLastWins(data);
    forall i | 0 <= i < |data|
      ensures data[i].address in Merged(data) && data[i].ports.Keys <= Merged(data)[data[i].address].Keys
    {
      MergedCovers(data, i);
    }
    if forall i :: 0 <= i < |data| ==>
        data[i].address in LastWins(data) && data[i].ports.Keys <= LastWins(data)[data[i].address].Keys {
      forall a | a in Merged(data)
        ensures Merged(data)[a] == LastWins(data)[a]
      {
        forall n | n in Merged(data)[a]
          ensures n in LastWins(data)[a]
        {
          var i := MergedComesFrom(data, a, n);
        }
      }
    }
  }

  /** Two entries of one address with different ports: the volume goes on showing the port of the first. */
  lemma StalePortFileStays() returns (data: seq<IngressAddress>)
    ensures Tidy(data) && Merged(data) != LastWins(data)
  {
    var first := IngressAddress("a", IP, map["http" := 80]);
    var second := IngressAddress("a", IP, map["https" := 443]);
    data := [first, second];
    MergedCovers(data, 0);
    assert "http" in first.ports && "http" !in LastWins(data)["a"];
  }

  /** With one port table for all, as in a status the controller wrote, a repeated address loses nothing. */
  lemma {:induction false} SharedTableSurvives(data: seq<IngressAddress>, ports: map<string, int>)
    requires forall i :: 0 <= i < |data| ==> data[i].ports == ports
    ensures forall a :: a in Merged(data) ==> Merged(data)[a] == ports
    ensures forall a :: a in Merged(data) <==> exists i :: 0 <= i < |data| && data[i].address == a
  {
    if data != [] {
      var front := data[..|data| - 1];
      SharedTableSurvives(front, ports);
      assert forall i :: 0 <= i < |front| ==> front[i] == data[i];
      forall a
        ensures a in Merged(data) <==> exists i :: 0 <= i < |data| && data[i].address == a
      {
        if a in Merged(front) {
          var i :| 0 <= i < |front| && front[i].address == a;
          assert data[i].address == a;
        }
      }
    }
  }
}
