/** The credential file: lines of the form name:token, read and rewritten line by line. */
module Credentials {
  import opened Schema

  // ----- the file as lines

  function LineEnd(s: string): (i: nat)
    ensures i <= |s| && '\n' !in s[..i] && (i < |s| ==> s[i] == '\n')
  {
    if s == [] || s[0] == '\n' then 0 else 1 + LineEnd(s[1..])
  }

  predicate EndsCr(s: string) {
    s != [] && s[|s| - 1] == '\r'
  }

  function TrimCr(s: string): string {
    if EndsCr(s) then s[..|s| - 1] else s
  }

  /** What the line reader yields: a carriage return is dropped in front of a line end only,
      and there is no empty line at the end of the file. */
  function Lines(s: string): seq<string>
    decreases |s|
  {
    if s == [] then []
    else if LineEnd(s) == |s| then [s]
    else [TrimCr(s[..LineEnd(s)])] + Lines(s[LineEnd(s) + 1..])
  }

  function Join(ls: seq<string>): string {
    if ls == [] then [] else if |ls| == 1 then ls[0] else ls[0] + "\n" + Join(ls[1..])
  }

  ghost predicate Unbroken(ls: seq<string>) {
    forall i :: 0 <= i < |ls| ==> '\n' !in ls[i]
  }

  /** What is left of lines that were joined and read again. */
  function Reread(ls: seq<string>): seq<string> {
    if ls == [] then []
    else if |ls| == 1 then (if ls[0] == [] then [] else ls)
    else [TrimCr(ls[0])] + Reread(ls[1..])
  }

  lemma {:induction false} JoinThenLines(ls: seq<string>)
    requires Unbroken(ls)
    ensures Lines(Join(ls)) == Reread(ls)
    decreases |ls|
  {
    if |ls| == 1 {
      assert LineEnd(ls[0]) == |ls[0]|;
    } else if |ls| > 1 {
      var s := Join(ls);
      FirstLine(ls[0], Join(ls[1..]));
      assert s == ls[0] + "\n" + Join(ls[1..]);
      assert s[..|ls[0]|] == ls[0] && s[|ls[0]| + 1..] == Join(ls[1..]);
      JoinThenLines(ls[1..]);
    }
  }

  lemma FirstLine(line: string, rest: string)
    requires '\n' !in line
    ensures LineEnd(line + "\n" + rest) == |line|
  {
    var s := line + "\n" + rest;
    assert s[|line|] == '\n' && s[..|line|] == line;
    LineEndIs(s, |line|);
  }

  lemma {:induction false} LinesUnbroken(s: string)
    ensures Unbroken(Lines(s))
    decreases |s|
  {
    if s != [] {
      if LineEnd(s) == |s| {
        assert s[..|s|] == s;
      } else {
        LinesUnbroken(s[LineEnd(s) + 1..]);
        var head := s[..LineEnd(s)];
        assert forall c :: c in TrimCr(head) ==> c in head;
        assert Lines(s) == [TrimCr(head)] + Lines(s[LineEnd(s) + 1..]);
      }
    }
  }

  // ----- lookup and update on lines

  function Entry(user: string, token: string): string {
    user + ":" + token
  }

  predicate IsOf(line: string, user: string) {
    Entry(user, "") <= line
  }

  /** The token in the first line of the user. */
  function Find(ls: seq<string>, user: string): Option<string> {
    if ls == [] then None
    else if IsOf(ls[0], user) then Some(ls[0][|user| + 1..])
    else Find(ls[1..], user)
  }

  /** The position of that line, or the number of lines. */
  function Place(ls: seq<string>, user: string): (i: nat)
    ensures i <= |ls|
  {
    if ls == [] || IsOf(ls[0], user) then 0 else 1 + Place(ls[1..], user)
  }

  function Replaced(ls: seq<string>, user: string, token: string): seq<string> {
    if ls == [] then []
    else [Rewritten(ls[0], user, token)] + Replaced(ls[1..], user, token)
  }

  function Rewritten(line: string, user: string, token: string): string {
    if IsOf(line, user) then Entry(user, token) else line
  }

  /** Every line of the user is replaced; without one, a line is added. */
  function Updated(ls: seq<string>, user: string, token: string): seq<string> {
    Replaced(ls, user, token) + (if Find(ls, user).None? then [Entry(user, token)] else [])
  }

  predicate PlainName(user: string) {
    ':' !in user && '\n' !in user
  }

  /** Names without a colon own their lines: no line belongs to two users. */
  lemma OneOwner(line: string, u: string, v: string)
    requires PlainName(u) && PlainName(v) && IsOf(line, u) && IsOf(line, v)
    ensures u == v
  {
    StartsWithName(line, u);
    StartsWithName(line, v);
  }

  lemma StartsWithName(line: string, u: string)
    requires ':' !in u && IsOf(line, u)
    ensures |u| < |line| && line[|u|] == ':' && line[..|u|] == u
    ensures forall k :: 0 <= k < |u| ==> line[k] != ':'
  {
    assert line[|u|] == Entry(u, "")[|u|];
    assert forall k :: 0 <= k < |u| ==> line[k] == Entry(u, "")[k] == u[k] && u[k] in u;
  }

  lemma EntryIsOf(u: string, token: string)
    ensures IsOf(Entry(u, token), u) && Entry(u, token)[|u| + 1..] == token
  {
  }

  /** After an update the user's first line holds the new token, at the same place. */
  lemma {:induction false} FindUpdated(ls: seq<string>, u: string, token: string)
    ensures Find(Updated(ls, u, token), u) == Some(token)
    ensures Place(Updated(ls, u, token), u) == Place(ls, u)
    decreases |ls|
  {
    EntryIsOf(u, token);
    if ls != [] && !IsOf(ls[0], u) {
      FindUpdated(ls[1..], u, token);
      assert Updated(ls, u, token) == [ls[0]] + Updated(ls[1..], u, token);
    }
  }

  /** Another user's first line is untouched. */
  lemma {:induction false} FindOther(ls: seq<string>, u: string, token: string, v: string)
    requires PlainName(u) && PlainName(v) && u != v
    ensures Find(Updated(ls, u, token), v) == Find(ls, v)
    ensures Find(ls, v).Some? ==> Place(Updated(ls, u, token), v) == Place(ls, v)
    decreases |ls|
  {
    EntryIsOf(u, token);
    if IsOf(Entry(u, token), v) { OneOwner(Entry(u, token), u, v); }
    FindReplaced(ls, u, token, v);
    if Find(ls, u).None? { FindAppended(Replaced(ls, u, token), Entry(u, token), v); }
    assert Find(ls, u).Some? ==> Updated(ls, u, token) == Replaced(ls, u, token);
  }

  lemma {:induction false} FindReplaced(ls: seq<string>, u: string, token: string, v: string)
    requires PlainName(u) && PlainName(v) && u != v && !IsOf(Entry(u, token), v)
    ensures Find(Replaced(ls, u, token), v) == Find(ls, v) && Place(Replaced(ls, u, token), v) == Place(ls, v)
    decreases |ls|
  {
    if ls != [] {
      FindReplaced(ls[1..], u, token, v);
      if IsOf(ls[0], u) && IsOf(ls[0], v) { OneOwner(ls[0], u, v); }
    }
  }

  lemma {:induction false} FindAppended(ls: seq<string>, line: string, v: string)
    requires !IsOf(line, v)
    ensures Find(ls + [line], v) == Find(ls, v)
    ensures Find(ls, v).Some? ==> Place(ls + [line], v) == Place(ls, v)
    decreases |ls|
  {
    if ls == [] {
      assert ls + [line] == [line];
    } else {
      assert (ls + [line])[1..] == ls[1..] + [line];
      FindAppended(ls[1..], line, v);
    }
  }

  lemma {:induction false} ReplacedUnbroken(ls: seq<string>, u: string, token: string)
    requires Unbroken(ls) && '\n' !in Entry(u, token)
    ensures Unbroken(Replaced(ls, u, token))
    decreases |ls|
  {
    if ls != [] { ReplacedUnbroken(ls[1..], u, token); }
  }

  lemma UpdatedUnbroken(ls: seq<string>, u: string, token: string)
    requires Unbroken(ls) && '\n' !in u && '\n' !in token
    ensures Unbroken(Updated(ls, u, token))
  {
    ReplacedUnbroken(ls, u, token);
  }

  /** A carriage return at the end of a line survives only in the last line. */
  lemma {:induction false} FindReread(ls: seq<string>, v: string)
    ensures Find(Reread(ls), v) ==
      if Find(ls, v).Some? && Place(ls, v) + 1 < |ls| then Some(TrimCr(Find(ls, v).value)) else Find(ls, v)
    decreases |ls|
  {
    if |ls| == 1 {
      assert ls[1..] == [];
    } else if |ls| > 1 {
      FindReread(ls[1..], v);
      TrimmedLine(ls[0], v);
    }
  }

  lemma TrimmedLine(line: string, v: string)
    ensures IsOf(TrimCr(line), v) <==> IsOf(line, v)
    ensures IsOf(line, v) ==> TrimCr(line)[|v| + 1..] == TrimCr(line[|v| + 1..])
  {
    if IsOf(line, v) {
      assert line[|v|] == Entry(v, "")[|v|] == ':';
      assert EndsCr(line) ==> |line| > |v| + 1;
    }
  }

  // ----- the file

  /** The text of the file after writing one user's token. */
  function FileAfter(file: Option<string>, user: string, token: string): string {
    if file.None? then Entry(user, token) else Join(Updated(Lines(file.value), user, token))
  }

  function LinesOf(file: Option<string>): seq<string> {
    if file.None? then [] else Lines(file.value)
  }

  /** What is found for a user in the file. */
  function TokenIn(file: Option<string>, user: string): Option<string> {
    Find(LinesOf(file), user)
  }

  lemma FileRead(file: Option<string>, u: string, token: string)
    requires '\n' !in u && '\n' !in token
    ensures LinesOf(Some(FileAfter(file, u, token))) == Reread(Updated(LinesOf(file), u, token))
  {
    if file.Some? { LinesUnbroken(file.value); }
    UpdatedUnbroken(LinesOf(file), u, token);
    JoinThenLines(Updated(LinesOf(file), u, token));
    assert file.None? ==> Updated([], u, token) == [Entry(u, token)];
  }

  /** The user's first line, if any, is the last line of the file, or is going to be appended. */
  predicate ComesLast(file: Option<string>, user: string) {
    Place(LinesOf(file), user) + 1 >= |LinesOf(file)|
  }

  lemma ReadAfterWrite(file: Option<string>, u: string, token: string)
    requires PlainName(u) && '\n' !in token
    ensures TokenIn(Some(FileAfter(file, u, token)), u) == Some(if ComesLast(file, u) then token else TrimCr(token))
  {
    FileRead(file, u, token);
    FindUpdated(LinesOf(file), u, token);
    FindReread(Updated(LinesOf(file), u, token), u);
    UpdatedSize(LinesOf(file), u, token);
  }

  /** A written token is read back exactly when it does not end in a carriage return or its
      line comes last in the new file. */
  lemma ReadAfterWriteIff(file: Option<string>, u: string, token: string)
    requires PlainName(u) && '\n' !in token
    ensures TokenIn(Some(FileAfter(file, u, token)), u) == Some(token) <==> !EndsCr(token) || ComesLast(file, u)
  {
    ReadAfterWrite(file, u, token);
  }

  lemma {:induction false} UpdatedSize(ls: seq<string>, u: string, token: string)
    ensures |Updated(ls, u, token)| == if Find(ls, u).None? then |ls| + 1 else |ls|
    ensures Find(ls, u).None? <==> Place(ls, u) == |ls|
    decreases |ls|
  {
    if ls != [] { UpdatedSize(ls[1..], u, token); }
  }

  /** Writing one user leaves what is read for another user unchanged, except that a token
      ending in a carriage return loses it unless its line stays the last one. */
  lemma OthersKeptIff(file: Option<string>, u: string, token: string, v: string)
    requires PlainName(u) && PlainName(v) && u != v && '\n' !in token
    ensures var ls := LinesOf(file);
      TokenIn(Some(FileAfter(file, u, token)), v) == TokenIn(file, v) <==>
      TokenIn(file, v).None? || !EndsCr(TokenIn(file, v).value)
      || (Place(ls, v) + 1 == |ls| && TokenIn(file, u).Some?)
  {
    var ls := LinesOf(file);
    FileRead(file, u, token);
    FindOther(ls, u, token, v);
    FindReread(Updated(ls, u, token), v);
    UpdatedSize(ls, u, token);
    UpdatedSize(ls, v, token);
  }

  /** What other users find after a write does not depend on the token written. */
  lemma OthersSeeNoToken(file: Option<string>, u: string, a: string, b: string, v: string)
    requires PlainName(u) && PlainName(v) && u != v && '\n' !in a && '\n' !in b
    ensures TokenIn(Some(FileAfter(file, u, a)), v) == TokenIn(Some(FileAfter(file, u, b)), v)
  {
    var ls := LinesOf(file);
    FileRead(file, u, a);
    FileRead(file, u, b);
    FindOther(ls, u, a, v);
    FindOther(ls, u, b, v);
    FindReread(Updated(ls, u, a), v);
    FindReread(Updated(ls, u, b), v);
    UpdatedSize(ls, u, a);
    UpdatedSize(ls, u, b);
  }

  /** A second write of a user gives every reader what it would have given without the first one,
      exactly under these conditions. For the user itself: the token does not end in a carriage
      return, or its line comes last in both cases or in neither. For another user: the token
      left by the first write does not end in one, or its line comes last. */
  lemma LaterWriteWinsIff(file: Option<string>, u: string, a: string, b: string, v: string)
    requires PlainName(u) && PlainName(v) && '\n' !in a && '\n' !in b
    ensures var once := Some(FileAfter(file, u, a));
      TokenIn(Some(FileAfter(once, u, b)), v) == TokenIn(Some(FileAfter(file, u, b)), v) <==>
      if v == u then !EndsCr(b) || ComesLast(once, u) == ComesLast(file, u)
      else TokenIn(once, v).None? || !EndsCr(TokenIn(once, v).value) || ComesLast(once, v)
  {
    var once := Some(FileAfter(file, u, a));
    ReadAfterWrite(file, u, a);
    if v == u {
      ReadAfterWrite(once, u, b);
      ReadAfterWrite(file, u, b);
    } else {
      OthersSeeNoToken(file, u, a, b, v);
      OthersKeptIff(once, u, b, v);
      UpdatedSize(LinesOf(once), v, b);
    }
  }

  /** In particular a later write wins in files and with tokens without carriage returns. */
  lemma LaterWriteWins(file: Option<string>, u: string, a: string, b: string, v: string)
    requires PlainName(u) && PlainName(v) && '\n' !in a && '\n' !in b
    requires file.Some? ==> '\r' !in file.value
    requires !EndsCr(b)
    ensures TokenIn(Some(FileAfter(Some(FileAfter(file, u, a)), u, b)), v) == TokenIn(Some(FileAfter(file, u, b)), v)
  {
    LaterWriteWinsIff(file, u, a, b, v);
    NoCr(file, v);
    if v != u { OthersKeptIff(file, u, a, v); }
  }

  lemma NoCr(file: Option<string>, v: string)
    requires file.Some? ==> '\r' !in file.value
    ensures TokenIn(file, v).Some? ==> '\r' !in TokenIn(file, v).value
  {
    if file.Some? {
      LinesNoCr(file.value);
      FindNoCr(Lines(file.value), v);
    }
  }

  lemma {:induction false} LinesNoCr(s: string)
    requires '\r' !in s
    ensures forall i :: 0 <= i < |Lines(s)| ==> '\r' !in Lines(s)[i]
    decreases |s|
  {
    if s != [] && LineEnd(s) < |s| { LinesNoCr(s[LineEnd(s) + 1..]); }
  }

  lemma {:induction false} FindNoCr(ls: seq<string>, v: string)
    requires forall i :: 0 <= i < |ls| ==> '\r' !in ls[i]
    ensures Find(ls, v).Some? ==> '\r' !in Find(ls, v).value
    decreases |ls|
  {
    if ls != [] && !IsOf(ls[0], v) { FindNoCr(ls[1..], v); }
  }

  /** The exception at work: the only user's token ends in a carriage return and loses it
      when somebody else logs in. */
  lemma CarriageReturnLost(u: string, token: string, v: string, kept: string)
    requires PlainName(u) && PlainName(v) && u != v && '\n' !in token && '\n' !in kept
    ensures var file := Some(Entry(v, kept + "\r"));
      && TokenIn(file, v) == Some(kept + "\r")
      && TokenIn(Some(FileAfter(file, u, token)), v) == Some(kept)
  {
    var line := Entry(v, kept + "\r");
    assert line[..|line|] == line;
    LineEndIs(line, |line|);
    EntryIsOf(v, kept + "\r");
    if IsOf(line, u) { OneOwner(line, u, v); }
    FileRead(Some(line), u, token);
    FindOther([line], u, token, v);
    FindReread(Updated([line], u, token), v);
    UpdatedSize([line], u, token);
    assert TrimCr(kept + "\r") == kept;
  }

  // ----- the code that reads and writes it

  method ReadLines(s: string) returns (ls: seq<string>)
    ensures ls == Lines(s)
  {
    ls := [];
    var rest := s;
    while rest != []
      invariant ls + Lines(rest) == Lines(s)
      decreases |rest|
    {
      var end := SeekLineEnd(rest);
      var line, next := rest, "";
      if end < |rest| { line, next := TrimCr(rest[..end]), rest[end + 1..]; }
      assert Lines(rest) == [line] + Lines(next);
      assert ls + [line] + Lines(next) == ls + ([line] + Lines(next));
      ls, rest := ls + [line], next;
    }
  }

  method SeekLineEnd(s: string) returns (end: nat)
    ensures end == LineEnd(s)
  {
    end := 0;
    while end < |s| && s[end] != '\n'
      invariant end <= |s| && '\n' !in s[..end]
    {
      assert s[..end + 1] == s[..end] + [s[end]];
      end := end + 1;
    }
    LineEndIs(s, end);
  }

  lemma {:induction false} LineEndIs(s: string, i: nat)
    requires i <= |s| && '\n' !in s[..i] && (i < |s| ==> s[i] == '\n')
    ensures LineEnd(s) == i
    decreases i
  {
    if i > 0 {
      assert s[0] in s[..i];
      assert s[1..][..i - 1] == s[..i][1..];
      LineEndIs(s[1..], i - 1);
    }
  }

  /** Splits at the first colon. */
  method SplitAtColon(line: string) returns (r: Option<(string, string)>)
    ensures r.None? <==> ':' !in line
    ensures r.Some? ==> ':' !in r.value.0 && line == Entry(r.value.0, r.value.1)
  {
    var i := 0;
    while i < |line|
      invariant i <= |line| && ':' !in line[..i]
    {
      if line[i] == ':' {
        assert line == line[..i] + ":" + line[i + 1..];
        return Some((line[..i], line[i + 1..]));
      }
      assert line[..i + 1] == line[..i] + [line[i]];
      i := i + 1;
    }
    assert line[..i] == line;
    r := None;
  }

  class CredentialFile {
    var content: Option<string>

    constructor (content: Option<string>)
      ensures this.content == content
    {
      this.content := content;
    }

    /** Looks for the line of a user, or takes the first line if no user is given. */
    method ExtractCredential(user: Option<string>) returns (r: Option<(string, string)>)
      ensures user.Some? && PlainName(user.value) ==>
        r == if TokenIn(content, user.value).None? then None
             else Some((user.value, TokenIn(content, user.value).value))
      ensures user.Some? ==> (r.Some? <==> Place(LinesOf(content), user.value) < |LinesOf(content)|)
      ensures user.Some? && r.Some? ==>
        LinesOf(content)[Place(LinesOf(content), user.value)] == Entry(r.value.0, r.value.1) && ':' !in r.value.0
      ensures user.None? ==> (r.Some? <==> LinesOf(content) != [] && ':' in LinesOf(content)[0])
      ensures user.None? && r.Some? ==> LinesOf(content)[0] == Entry(r.value.0, r.value.1) && ':' !in r.value.0
    {
      if content.None? {
        return None;
      }
      var lines := ReadLines(content.value);
      if user.None? {
        if lines == [] { return None; }
        r := SplitAtColon(lines[0]);
        return;
      }
      var i := 0;
      while i < |lines|
        invariant i <= |lines| && Find(lines[i..], user.value) == Find(lines, user.value)
        invariant i + Place(lines[i..], user.value) == Place(lines, user.value)
      {
        if Entry(user.value, "") <= lines[i] {
          var pair := SplitAtColon(lines[i]);
          assert lines[i][|user.value|] == Entry(user.value, "")[|user.value|] == ':';
          if PlainName(user.value) { SplitIs(lines[i], user.value, pair.value.0, pair.value.1); }
          return pair;
        }
        i := i + 1;
      }
      r := None;
    }

    /** Rewrites the file with the user's lines replaced, or one added. */
    method ModifyOrAppend(user: string, token: string)
      modifies this
      ensures content == Some(FileAfter(old(content), user, token))
    {
      if content.None? {
        content := Some(user + ":" + token);
        return;
      }
      var lines := ReadLines(content.value);
      var newLines, found := RewriteLines(lines, user, token);
      if !found {
        newLines := newLines + [user + ":" + token];
      }
      assert newLines == Updated(lines, user, token);
      content := Some(Join(newLines));
    }
  }

  method RewriteLines(lines: seq<string>, user: string, token: string) returns (newLines: seq<string>, found: bool)
    ensures newLines == Replaced(lines, user, token) && found == Find(lines, user).Some?
  {
    newLines, found := [], false;
    var i := 0;
    while i < |lines|
      invariant i == |newLines| <= |lines|
      invariant forall j :: 0 <= j < i ==> newLines[j] == Rewritten(lines[j], user, token)
      invariant found <==> exists j :: 0 <= j < i && IsOf(lines[j], user)
    {
      if Entry(user, "") <= lines[i] {
        newLines, found := newLines + [user + ":" + token], true;
      } else {
        newLines := newLines + [lines[i]];
      }
      i := i + 1;
    }
    ReplacedLines(lines, user, token);
  }

  lemma {:induction false} ReplacedLines(ls: seq<string>, user: string, token: string)
    ensures |Replaced(ls, user, token)| == |ls|
    ensures forall j :: 0 <= j < |ls| ==> Replaced(ls, user, token)[j] == Rewritten(ls[j], user, token)
    ensures Find(ls, user).Some? <==> exists j :: 0 <= j < |ls| && IsOf(ls[j], user)
    decreases |ls|
  {
    if ls != [] {
      ReplacedLines(ls[1..], user, token);
      assert forall j :: 0 < j < |ls| ==> ls[1..][j - 1] == ls[j];
      assert forall j :: 0 <= j < |ls| - 1 ==> ls[1..][j] == ls[j + 1];
    }
  }

  lemma SplitIs(line: string, user: string, name: string, token: string)
    requires PlainName(user) && IsOf(line, user) && ':' !in name && line == Entry(name, token)
    ensures name == user && token == line[|user| + 1..]
  {
    StartsWithName(line, user);
    StartsWithName(line, name);
  }
}
