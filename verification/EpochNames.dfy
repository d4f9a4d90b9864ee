/**
  * Lock names that publish a commit epoch, and how the highest one is read back.
  * A realm holds the lock `bsq:epoch:<vfs>:<file>:<n>`; nobody reads the lock,
  * its name is the state.
  */
module EpochNames {
  import opened Basics

  predicate NoColon(s: string) { ':' !in s }

  function EpochPrefix(vfs: string, file: string): string { "bsq:epoch:" + vfs + ":" + file }

  function EpochLockName(vfs: string, file: string, n: nat): string
  {
    EpochPrefix(vfs, file) + ":" + Decimal(n)
  }

  /** The epoch a held name publishes under `prefix`, if it is such a marker. */
  function EpochIn(name: string, prefix: string): Option<nat>
  {
    if !StartsWith(name, prefix + ":") then None
    else
      var tail := name[|prefix| + 1..];
      if AllDigits(tail) then Some(ToNat(tail)) else None
  }

  /** The highest epoch published under `prefix`, 0 when none is. */
  ghost function OriginMax(held: seq<string>, prefix: string): (m: nat)
    ensures forall name | name in held && EpochIn(name, prefix).Some? :: EpochIn(name, prefix).value <= m
    ensures m == 0 || exists name :: name in held && EpochIn(name, prefix) == Some(m)
  {
    if held == [] then 0
    else
      var rest := OriginMax(held[1..], prefix);
      match EpochIn(held[0], prefix)
      case None => rest
      case Some(n) => if n > rest then n else rest
  }

  /** The maximum is determined by the names held, whatever their order and however often each is held. */
  lemma OriginMaxIs(held: seq<string>, prefix: string, m: nat)
    requires forall name | name in held && EpochIn(name, prefix).Some? :: EpochIn(name, prefix).value <= m
    requires m == 0 || exists name :: name in held && EpochIn(name, prefix) == Some(m)
    ensures OriginMax(held, prefix) == m
  {
  }

  method MaxEpochIn(heldNames: seq<string>, prefix: string) returns (max: nat)
    ensures max == OriginMax(heldNames, prefix)
  {
    max := 0;
    for i := 0 to |heldNames|
      invariant forall k | 0 <= k < i && EpochIn(heldNames[k], prefix).Some? :: EpochIn(heldNames[k], prefix).value <= max
      invariant max == 0 || exists k :: 0 <= k < i && EpochIn(heldNames[k], prefix) == Some(max)
    {
      var name := heldNames[i];
      if StartsWith(name, prefix + ":") {
        var tail := name[|prefix| + 1..];
        if AllDigits(tail) {
          var n := ToNat(tail);
          if n > max { max := n; }
        }
      }
    }
    OriginMaxIs(heldNames, prefix, max);
  }

  /** A text is cut at its last colon in one way only. */
  lemma LastColonIsUnique(a: string, x: string, b: string, y: string)
    requires NoColon(x) && NoColon(y)
    requires a + ":" + x == b + ":" + y
    ensures a == b && x == y
  {
    var s := a + ":" + x;
    assert s[|a|] == ':' && s[|b|] == (b + ":" + y)[|b|] == ':';
    assert forall i | |a| < i < |s| :: s[i] == x[i - |a| - 1];
    assert forall i | |b| < i < |s| :: s[i] == (b + ":" + y)[i] == y[i - |b| - 1];
    assert a == s[..|a|] && b == (b + ":" + y)[..|b|];
    assert x == s[|a| + 1..] && y == (b + ":" + y)[|b| + 1..];
  }

  /** A text is cut at its first colon in one way only. */
  lemma FirstColonIsUnique(a: string, x: string, b: string, y: string)
    requires NoColon(a) && NoColon(b)
    requires a + ":" + x == b + ":" + y
    ensures a == b && x == y
  {
    var s := a + ":" + x;
    assert s[|a|] == ':' && s[|b|] == (b + ":" + y)[|b|] == ':';
    assert forall i | 0 <= i < |a| :: s[i] == a[i];
    assert forall i | 0 <= i < |b| :: s[i] == (b + ":" + y)[i] == b[i];
    assert a == s[..|a|] && b == (b + ":" + y)[..|b|];
    assert x == s[|a| + 1..] && y == (b + ":" + y)[|b| + 1..];
  }

  lemma DigitsHoldNoColon(s: string)
    requires AllDigits(s)
    ensures NoColon(s)
  {
  }

  /**
    * A marker is read as this database's exactly when it is, however many
    * colons the file names hold. No VFS name holds one.
    */
  lemma OnlyOwnMarkersAreRead(vfs: string, file: string, otherVfs: string, otherFile: string, n: nat)
    requires NoColon(vfs) && NoColon(otherVfs)
    ensures EpochIn(EpochLockName(otherVfs, otherFile, n), EpochPrefix(vfs, file))
         == if vfs == otherVfs && file == otherFile then Some(n) else None
  {
    var prefix := EpochPrefix(vfs, file);
    var name := EpochLockName(otherVfs, otherFile, n);
    DigitsHoldNoColon(Decimal(n));
    if vfs == otherVfs && file == otherFile {
      assert name[..|prefix| + 1] == prefix + ":";
      assert name[|prefix| + 1..] == Decimal(n);
    } else if EpochIn(name, prefix).Some? {
      var tail := name[|prefix| + 1..];
      DigitsHoldNoColon(tail);
      assert name == prefix + ":" + tail;
      LastColonIsUnique(prefix, tail, EpochPrefix(otherVfs, otherFile), Decimal(n));
      var head := "bsq:epoch:";
      assert prefix[|head|..] == vfs + ":" + file;
      assert EpochPrefix(otherVfs, otherFile)[|head|..] == otherVfs + ":" + otherFile;
      FirstColonIsUnique(vfs, file, otherVfs, otherFile);
    }
  }

  /** `held` without one occurrence of `name`. */
  function Without(held: seq<string>, name: string): (r: seq<string>)
    ensures forall x | x in r :: x in held
    ensures forall x | x in held && x != name :: x in r
  {
    if held == [] then []
    else if held[0] == name then held[1..]
    else [held[0]] + Without(held[1..], name)
  }

  /** One more marker makes the maximum the larger of the two; another name changes nothing. */
  lemma HoldingRaises(held: seq<string>, prefix: string, name: string)
    ensures var m := OriginMax(held, prefix);
            OriginMax(held + [name], prefix) ==
            match EpochIn(name, prefix) case None => m case Some(n) => if n > m then n else m
  {
    var m := OriginMax(held, prefix);
    var more := held + [name];
    assert forall x | x in more :: x in held || x == name;
    var n := if EpochIn(name, prefix).Some? then EpochIn(name, prefix).value else 0;
    if n > m {
      assert name in more;
      OriginMaxIs(more, prefix, n);
    } else {
      if m != 0 {
        var x :| x in held && EpochIn(x, prefix) == Some(m);
        assert x in more;
      }
      OriginMaxIs(more, prefix, m);
    }
  }

  /** Releasing a name below the maximum never lowers it. */
  lemma DroppingKeeps(held: seq<string>, prefix: string, name: string)
    requires EpochIn(name, prefix).Some? ==> EpochIn(name, prefix).value < OriginMax(held, prefix)
    ensures OriginMax(Without(held, name), prefix) == OriginMax(held, prefix)
  {
    var m := OriginMax(held, prefix);
    if m != 0 {
      var x :| x in held && EpochIn(x, prefix) == Some(m);
      assert x in Without(held, name);
    }
    OriginMaxIs(Without(held, name), prefix, m);
  }
}
