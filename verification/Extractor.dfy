/**
 Validation and extraction of an archive (app/infrastructure/scanner/extractor.py), on a file system without links.
 */
module Extractor {
  import opened Wrappers

  datatype Kind = RegularFile | Directory | SymbolicLink | HardLink | Device | Fifo | Unsupported

  /** A tar header. The size is whatever number the header holds. */
  datatype Member = Member(name: string, kind: Kind, size: int, linkName: string)

  datatype Limits = Limits(maxMembers: nat, maxTotalBytes: nat, maxFileBytes: nat, maxPathDepth: nat)

  datatype Error = Unsafe | LimitExceeded | MalformedArchive

  // ---------- paths

  /** str.split('/') */
  function Split(s: string): (pieces: seq<string>)
    ensures pieces != []
  {
    if s == [] then [[]]
    else
      var rest := Split(s[1..]);
      if s[0] == '/' then [[]] + rest else [[s[0]] + rest[0]] + rest[1..]
  }

  predicate Kept(piece: string) { piece != "" && piece != "." }

  function Keep(pieces: seq<string>): seq<string> {
    if pieces == [] then [] else (if Kept(pieces[0]) then [pieces[0]] else []) + Keep(pieces[1..])
  }

  /** The parts of a relative path: empty and `.` pieces are dropped, `..` is not. */
  function Parts(name: string): seq<string> { Keep(Split(name)) }

  predicate IsAbsolute(name: string) { name != "" && name[0] == '/' }

  function PathDepth(name: string): nat { |Parts(name)| }

  /** (base / parts).resolve(): `..` goes up, and stays put at the top of the file system. */
  function Resolve(base: seq<string>, parts: seq<string>): seq<string>
    decreases |parts|
  {
    if parts == [] then base
    else if parts[0] == ".." then Resolve(Parent(base), parts[1..])
    else Resolve(base + [parts[0]], parts[1..])
  }

  function Parent(path: seq<string>): seq<string> { if path == [] then [] else path[..|path| - 1] }

  /** candidate.relative_to(root) does not raise. */
  predicate Within(root: seq<string>, candidate: seq<string>) { root <= candidate }

  // ---------- the checks

  function CheckLink(root: seq<string>, path: seq<string>, linkName: string): Option<Error> {
    if IsAbsolute(linkName) then Some(Unsafe)
    else if !Within(root, Resolve(Parent(path), Parts(linkName))) then Some(Unsafe)
    else None
  }

  /** `_validate_member`: the error it raises, if any. */
  function CheckMember(limits: Limits, root: seq<string>, m: Member): Option<Error> {
    var path := Resolve(root, Parts(m.name));
    if m.name == "" || m.name == "." || m.name == "./" then Some(Unsafe)
    else if IsAbsolute(m.name) then Some(Unsafe)
    else if PathDepth(m.name) > limits.maxPathDepth then Some(LimitExceeded)
    else if !Within(root, path) then Some(Unsafe)
    else if m.kind.Device? || m.kind.Fifo? then Some(Unsafe)
    else if m.kind.Unsupported? then Some(Unsafe)
    else if m.kind.RegularFile? && m.size > limits.maxFileBytes then Some(LimitExceeded)
    else if m.kind.SymbolicLink? || m.kind.HardLink? then CheckLink(root, path, m.linkName)
    else None
  }

  /** The bytes the regular files among the members claim. */
  function TotalBytes(members: seq<Member>): int {
    if members == [] then 0
    else TotalBytes(members[..|members| - 1])
         + if members[|members| - 1].kind.RegularFile? then members[|members| - 1].size else 0
  }

  predicate EveryMemberPasses(limits: Limits, root: seq<string>, members: seq<Member>) {
    forall i :: 0 <= i < |members| ==> CheckMember(limits, root, members[i]).None?
  }

  predicate NoPrefixTooLarge(limits: Limits, members: seq<Member>) {
    forall i :: 0 <= i <= |members| ==> TotalBytes(members[..i]) <= limits.maxTotalBytes
  }

  predicate Acceptable(limits: Limits, root: seq<string>, members: seq<Member>) {
    |members| <= limits.maxMembers && EveryMemberPasses(limits, root, members) && NoPrefixTooLarge(limits, members)
  }

  /** The first thing wrong with the archive, members in order and a member's own check before its size is added. */
  ghost predicate FirstProblem(limits: Limits, root: seq<string>, members: seq<Member>, k: nat, error: Error) {
    && |members| <= limits.maxMembers && k < |members|
    && Acceptable(limits, root, members[..k])
    && match CheckMember(limits, root, members[k])
       case Some(e) => error == e
       case None => TotalBytes(members[..k + 1]) > limits.maxTotalBytes && error == LimitExceeded
  }

  ghost predicate RejectedFor(limits: Limits, root: seq<string>, members: seq<Member>, error: Error) {
    if |members| > limits.maxMembers then error == LimitExceeded
    else exists k: nat :: FirstProblem(limits, root, members, k, error)
  }

  lemma AcceptableIsBounded(limits: Limits, root: seq<string>, members: seq<Member>)
    ensures Acceptable(limits, root, members) ==> |members| <= limits.maxMembers
  {
  }

  lemma NothingIsAcceptable(limits: Limits, root: seq<string>, members: seq<Member>)
    ensures TotalBytes(members[..0]) == 0 && Acceptable(limits, root, members[..0])
  {
  }

  /** What the loop finds out about the next member decides about the archive. */
  lemma OneMore(limits: Limits, root: seq<string>, members: seq<Member>, i: nat)
    requires |members| <= limits.maxMembers && i < |members| && Acceptable(limits, root, members[..i])
    ensures TotalBytes(members[..i]) <= limits.maxTotalBytes
    ensures TotalBytes(members[..i + 1]) == TotalBytes(members[..i])
            + if members[i].kind.RegularFile? then members[i].size else 0
    ensures var problem := CheckMember(limits, root, members[i]);
            if problem.Some? then
              FirstProblem(limits, root, members, i, problem.value) && !Acceptable(limits, root, members)
            else if TotalBytes(members[..i + 1]) > limits.maxTotalBytes then
              FirstProblem(limits, root, members, i, LimitExceeded) && !Acceptable(limits, root, members)
            else Acceptable(limits, root, members[..i + 1])
  {
    hide CheckMember;
    var before, after := members[..i], members[..i + 1];
    assert after[..i] == before && after[i] == members[i] && after[..i + 1] == after;
    assert forall j :: 0 <= j <= i ==> after[..j] == before[..j];
  }

  class SafeExtractor {
    const limits: Limits

    constructor (limits: Limits)
      ensures this.limits == limits
    {
      this.limits := limits;
    }

    method ValidateArchive(members: seq<Member>, root: seq<string>) returns (r: Result<(), Error>)
      ensures r.Ok? <==> Acceptable(limits, root, members)
      ensures r.Err? ==> RejectedFor(limits, root, members, r.error)
    {
      hide CheckMember, Acceptable, FirstProblem, TotalBytes;
      if |members| > limits.maxMembers {
        AcceptableIsBounded(limits, root, members);
        return Err(LimitExceeded);
      }
      var total := 0;
      NothingIsAcceptable(limits, root, members);
      for i := 0 to |members|
        invariant total == TotalBytes(members[..i])
        invariant Acceptable(limits, root, members[..i])
      {
        OneMore(limits, root, members, i);
        var problem := CheckMember(limits, root, members[i]);
        if problem.Some? {
          return Err(problem.value);
        }
        if members[i].kind.RegularFile? {
          total := total + members[i].size;
          if total > limits.maxTotalBytes {
            return Err(LimitExceeded);
          }
        }
      }
      assert members[..|members|] == members;
      return Ok(());
    }

    /**
     `headers` is what reading the archive's headers gives, `writable` whether extracting a member succeeds.
     Nothing is written unless the whole archive passed; then the members are written in order,
     up to the first that fails.
     */
    method Extract(headers: Option<seq<Member>>, root: seq<string>, writable: Member -> bool, destination: Destination)
      returns (r: Result<seq<string>, Error>)
      modifies destination
      ensures headers.None? || !Acceptable(limits, root, headers.value) ==>
                r.Err? && destination.written == old(destination.written)
      ensures r.Ok? <==> headers.Some? && Acceptable(limits, root, headers.value)
                         && forall i :: 0 <= i < |headers.value| ==> writable(headers.value[i])
      ensures headers.None? ==> r == Err(MalformedArchive)
      ensures headers.Some? && !Acceptable(limits, root, headers.value) ==>
                RejectedFor(limits, root, headers.value, r.error)
      ensures r.Ok? ==> r.value == root && destination.written == old(destination.written) + headers.value
      ensures r.Err? && headers.Some? && Acceptable(limits, root, headers.value) ==>
                r.error == MalformedArchive
                && exists k :: 0 <= k < |headers.value| && !writable(headers.value[k])
                               && (forall i :: 0 <= i < k ==> writable(headers.value[i]))
                               && destination.written == old(destination.written) + headers.value[..k]
    {
      hide Acceptable, RejectedFor;
      if headers.None? {
        return Err(MalformedArchive);
      }
      var members := headers.value;
      var valid := ValidateArchive(members, root);
      if valid.Err? {
        return Err(valid.error);
      }
      for i := 0 to |members|
        invariant destination.written == old(destination.written) + members[..i]
        invariant forall j :: 0 <= j < i ==> writable(members[j])
      {
        if !writable(members[i]) {
          return Err(MalformedArchive);
        }
        destination.written := destination.written + [members[i]];
        assert members[..i + 1] == members[..i] + [members[i]];
      }
      assert members[..|members|] == members;
      return Ok(root);
    }
  }

  /** What has been extracted into a directory, in order. */
  class Destination {
    var written: seq<Member>

    constructor ()
      ensures written == []
    {
      written := [];
    }
  }

  // ---------- the running total against the final one

  lemma {:induction false} TotalGrows(members: seq<Member>, i: nat)
    requires i <= |members|
    requires forall k :: 0 <= k < |members| && members[k].kind.RegularFile? ==> members[k].size >= 0
    ensures TotalBytes(members[..i]) <= TotalBytes(members)
    decreases |members|
  {
    if i < |members| {
      var front := members[..|members| - 1];
      TotalGrows(front, i);
      assert front[..i] == members[..i];
    } else {
      assert members[..i] == members;
    }
  }

  /** With sizes that are no negative numbers, checking the running total is checking the sum. */
  lemma AcceptedByTotal(limits: Limits, root: seq<string>, members: seq<Member>)
    requires forall k :: 0 <= k < |members| && members[k].kind.RegularFile? ==> members[k].size >= 0
    ensures Acceptable(limits, root, members) <==>
            |members| <= limits.maxMembers && EveryMemberPasses(limits, root, members)
            && TotalBytes(members) <= limits.maxTotalBytes
  {
    assert members[..|members|] == members;
    forall i | 0 <= i <= |members|
      ensures TotalBytes(members[..i]) <= TotalBytes(members)
    {
      TotalGrows(members, i);
    }
  }

  // ---------- where accepted members go

  lemma {:induction false} ResolveGrowsByParts(base: seq<string>, parts: seq<string>)
    ensures |Resolve(base, parts)| <= |base| + |parts|
    decreases |parts|
  {
    if parts != [] {
      ResolveGrowsByParts(if parts[0] == ".." then Parent(base) else base + [parts[0]], parts[1..]);
    }
  }

  /** Every accepted member, link or not, resolves to root ++ rel with |rel| <= max_path_depth. */
  lemma AcceptedStaysInside(limits: Limits, root: seq<string>, members: seq<Member>, m: Member)
    requires Acceptable(limits, root, members) && m in members
    ensures exists rel :: Resolve(root, Parts(m.name)) == root + rel && |rel| <= limits.maxPathDepth
    ensures m.kind.SymbolicLink? || m.kind.HardLink? ==>
              !IsAbsolute(m.linkName) && root <= Resolve(Parent(Resolve(root, Parts(m.name))), Parts(m.linkName))
  {
    var i :| 0 <= i < |members| && members[i] == m;
    var path := Resolve(root, Parts(m.name));
    assert Within(root, path) && PathDepth(m.name) <= limits.maxPathDepth by {
      assert CheckMember(limits, root, m).None?;
    }
    hide Parts, Resolve;
    assert m.kind.SymbolicLink? || m.kind.HardLink? ==> CheckLink(root, path, m.linkName).None? by {
      assert CheckMember(limits, root, m).None?;
    }
    hide CheckMember, Acceptable;
    ResolveGrowsByParts(root, Parts(m.name));
    assert path == root + path[|root|..];
  }

  ghost predicate Below(root: seq<string>, path: seq<string>) {
    exists rel :: path == root + rel
  }

  /** All that a member's own check comes down to. */
  lemma PassesExactly(limits: Limits, root: seq<string>, m: Member)
    ensures var path := Resolve(root, Parts(m.name));
            CheckMember(limits, root, m).None? <==>
              && m.name !in {"", ".", "./"} && !IsAbsolute(m.name) && PathDepth(m.name) <= limits.maxPathDepth
              && Below(root, path)
              && m.kind in {RegularFile, Directory, SymbolicLink, HardLink}
              && (m.kind == RegularFile ==> m.size <= limits.maxFileBytes)
              && (m.kind in {SymbolicLink, HardLink} ==>
                    !IsAbsolute(m.linkName) && Below(root, Resolve(Parent(path), Parts(m.linkName))))
  {
    var path := Resolve(root, Parts(m.name));
    var target := Resolve(Parent(path), Parts(m.linkName));
    hide Resolve, Parts;
    BelowIsWithin(root, path);
    BelowIsWithin(root, target);
    hide Below, Within;
    assert m.kind.RegularFile? || m.kind.Directory? || m.kind.SymbolicLink? || m.kind.HardLink? || m.kind.Device?
           || m.kind.Fifo? || m.kind.Unsupported?;
  }

  lemma BelowIsWithin(root: seq<string>, path: seq<string>)
    ensures Below(root, path) <==> Within(root, path)
  {
    if Within(root, path) {
      assert path == root + path[|root|..];
    }
  }

  /** How far below its start the path is after each part. */
  function Level(parts: seq<string>): int {
    if parts == [] then 0 else Level(parts[..|parts| - 1]) + if parts[|parts| - 1] == ".." then -1 else 1
  }

  predicate NeverAboveStart(parts: seq<string>) {
    forall i :: 0 <= i <= |parts| ==> Level(parts[..i]) >= 0
  }

  lemma {:induction false} ResolveSnoc(base: seq<string>, parts: seq<string>, part: string)
    ensures Resolve(base, parts + [part])
            == if part == ".." then Parent(Resolve(base, parts)) else Resolve(base, parts) + [part]
    decreases |parts|
  {
    if parts == [] {
      assert [part][1..] == [];
    } else {
      assert (parts + [part])[0] == parts[0] && (parts + [part])[1..] == parts[1..] + [part];
      ResolveSnoc(if parts[0] == ".." then Parent(base) else base + [parts[0]], parts[1..], part);
    }
  }

  /** A name that never climbs above its start resolves below the root, whatever the root, to the same place. */
  lemma {:induction false} NeverAboveResolvesBelow(root: seq<string>, parts: seq<string>)
    requires NeverAboveStart(parts)
    ensures Resolve(root, parts) == root + Resolve([], parts)
    ensures |Resolve([], parts)| == Level(parts)
    decreases |parts|
  {
    if parts != [] {
      var front, part := parts[..|parts| - 1], parts[|parts| - 1];
      assert parts == front + [part];
      assert forall i :: 0 <= i <= |front| ==> parts[..i] == front[..i];
      NeverAboveResolvesBelow(root, front);
      ResolveSnoc(root, front, part);
      ResolveSnoc([], front, part);
      assert parts[..|parts|] == parts;
    }
  }

  // ---------- reading a name back

  function Join(parts: seq<string>): string {
    if parts == [] then "" else if |parts| == 1 then parts[0] else parts[0] + "/" + Join(parts[1..])
  }

  predicate IsPart(piece: string) { Kept(piece) && '/' !in piece }

  lemma {:induction false} SplitPiece(piece: string, rest: string)
    requires '/' !in piece
    ensures Split(piece + "/" + rest) == [piece] + Split(rest)
    ensures Split(piece) == [piece]
  {
    if piece == "" {
      assert piece + "/" + rest == "/" + rest;
      assert ("/" + rest)[1..] == rest;
    } else {
      var s := piece + "/" + rest;
      assert s[1..] == piece[1..] + "/" + rest;
      SplitPiece(piece[1..], rest);
      assert piece == [piece[0]] + piece[1..];
      assert s[0] == piece[0];
    }
  }

  /** Parsing undoes joining. */
  lemma {:induction false} PartsOfJoin(parts: seq<string>)
    requires forall i :: 0 <= i < |parts| ==> IsPart(parts[i])
    ensures Parts(Join(parts)) == parts
  {
    if parts == [] {
      assert Split("") == [""];
      assert Keep([""]) == Keep([""][1..]);
    } else if |parts| == 1 {
      SplitPiece(parts[0], "");
      assert IsPart(parts[0]) && Keep([parts[0]][1..]) == [];
      assert Keep([parts[0]]) == [parts[0]] == parts;
    } else {
      SplitPiece(parts[0], Join(parts[1..]));
      PartsOfJoin(parts[1..]);
      var pieces := Split(Join(parts));
      assert pieces[1..] == Split(Join(parts[1..]));
    }
  }

  /** What parsing does with a piece: an empty one and `.` vanish, every other stays, `..` included. */
  lemma PartsByPiece(piece: string, rest: string)
    requires '/' !in piece
    ensures Parts(piece + "/" + rest) == (if piece == "" || piece == "." then [] else [piece]) + Parts(rest)
    ensures Parts(piece) == if piece == "" || piece == "." then [] else [piece]
    ensures PathDepth(piece + "/" + rest) == (if piece == "" || piece == "." then 0 else 1) + PathDepth(rest)
  {
    SplitPiece(piece, rest);
    assert ([piece] + Split(rest))[1..] == Split(rest);
    assert [piece][1..] == [] && Keep([]) == [];
    assert Keep([piece]) == (if Kept(piece) then [piece] else []) + Keep([piece][1..]);
  }

  // ---------- names that are refused

  lemma ResolveUpAndDown(root: seq<string>, piece: string)
    requires piece != ".."
    ensures Resolve(root, ["..", piece]) == Parent(root) + [piece]
  {
    var up := Parent(root);
    assert ["..", piece][1..] == [piece] && [piece][1..] == [];
    assert Resolve(up, [piece]) == Resolve(up + [piece], [piece][1..]) == up + [piece];
  }

  /** A member beside the root is refused: `../x` passes only where the root itself is called x, or is the top. */
  lemma SiblingIsRefused(limits: Limits, root: seq<string>, m: Member, piece: string)
    requires m.name == "../" + piece && '/' !in piece && piece !in {"", ".", ".."}
    requires root != [] && root[|root| - 1] != piece
    ensures CheckMember(limits, root, m).Some?
    ensures limits.maxPathDepth >= 2 ==> CheckMember(limits, root, m) == Some(Unsafe)
  {
    assert m.name == ".." + "/" + piece;
    PartsByPiece("..", piece);
    PartsByPiece(piece, "");
    assert Parts(m.name) == ["..", piece];
    ResolveUpAndDown(root, piece);
    var path := Resolve(root, Parts(m.name));
    assert |path| == |root| && path[|root| - 1] == piece;
    hide Resolve, Parts;
  }

  /** So is the directory above the root. */
  lemma ParentIsRefused(limits: Limits, root: seq<string>, m: Member)
    requires m.name == ".." && root != []
    ensures CheckMember(limits, root, m).Some?
  {
    PartsByPiece("..", "");
    assert Resolve(root, [".."]) == Parent(root) by {
      assert [".."][1..] == [];
    }
  }

  /** Which error a refused member raises: only depth and size are limits, and depth is looked at before the place. */
  lemma ErrorsExactly(limits: Limits, root: seq<string>, m: Member)
    ensures var inside := root <= Resolve(root, Parts(m.name));
            var named := m.name !in {"", ".", "./"} && m.name[0] != '/';
            && (CheckMember(limits, root, m) == Some(LimitExceeded) <==>
                  named && (PathDepth(m.name) > limits.maxPathDepth
                            || (inside && m.kind == RegularFile && m.size > limits.maxFileBytes)))
            && CheckMember(limits, root, m) != Some(MalformedArchive)
            && (!named ==> CheckMember(limits, root, m) == Some(Unsafe))
  {
    hide Resolve, Parts;
  }
}
