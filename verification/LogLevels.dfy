/** CocoaLumberjack.swift: flags, levels and the gate in front of every Swift log call. */
module LogLevels {
  import opened Options

  /** A 64-bit raw value as an option set: which of its bits are on. */
  type Word = w: set<nat> | forall b :: b in w ==> IsBit(b)

  predicate IsBit(b: nat) {
    b < 64
  }

  function LowestBits(n: nat): (r: Word)
    requires n <= 64
    ensures forall b: nat :: b in r <==> b < n
  {
    set b: nat | b < n && IsBit(b)
  }

  /** The declared levels; each but the last is the one before it and one more flag. */
  datatype Level = Off | Error | Warning | Info | Debug | Verbose | All {
    function Depth(): (n: nat)
      ensures n <= 64
    {
      match this
      case Off => 0
      case Error => 1
      case Warning => 2
      case Info => 3
      case Debug => 4
      case Verbose => 5
      case All => 64
    }

    function Raw(): Word {
      LowestBits(Depth())
    }
  }

  datatype Flag = ErrorFlag | WarningFlag | InfoFlag | DebugFlag | VerboseFlag {
    function Bit(): nat {
      match this
      case ErrorFlag => 0
      case WarningFlag => 1
      case InfoFlag => 2
      case DebugFlag => 3
      case VerboseFlag => 4
    }
  }

  function FromLogLevel(level: Level): Word {
    level.Raw()
  }

  /** The failable initializer of the enumeration, taken to succeed on the declared values only. */
  function LevelOf(word: Word): Option<Level> {
    if word == Off.Raw() then Some(Off)
    else if word == Error.Raw() then Some(Error)
    else if word == Warning.Raw() then Some(Warning)
    else if word == Info.Raw() then Some(Info)
    else if word == Debug.Raw() then Some(Debug)
    else if word == Verbose.Raw() then Some(Verbose)
    else if word == All.Raw() then Some(All)
    else None
  }

  function ToLogLevel(word: Word): Level {
    match LevelOf(word)
    case Some(level) => level
    case None =>
      if VerboseFlag.Bit() in word then Verbose
      else if DebugFlag.Bit() in word then Debug
      else if InfoFlag.Bit() in word then Info
      else if WarningFlag.Bit() in word then Warning
      else if ErrorFlag.Bit() in word then Error
      else Off
  }

  lemma RawInjective(a: Level, b: Level)
    requires a.Raw() == b.Raw()
    ensures a == b
  {
    assert a.Depth() in b.Raw() <==> a.Depth() < b.Depth();
    assert b.Depth() in a.Raw() <==> b.Depth() < a.Depth();
  }

  /** Every declared level converts to a word and back. */
  lemma LevelRoundTrip(level: Level)
    ensures ToLogLevel(FromLogLevel(level)) == level
  {
    var word := level.Raw();
    assert LevelOf(word).Some? && LevelOf(word).value.Raw() == word;
    RawInjective(level, LevelOf(word).value);
  }

  /** Every standard bit of `word` is on at `level`. */
  predicate Covers(level: Level, word: Word) {
    word * Verbose.Raw() <= level.Raw()
  }

  /** On any word the result covers its standard bits; on an undeclared one it is the least declared level that does. */
  lemma LeastCoveringLevel(word: Word, level: Level)
    ensures Covers(ToLogLevel(word), word)
    ensures LevelOf(word).None? && Covers(level, word) ==> ToLogLevel(word).Raw() <= level.Raw()
  {
    var result := ToLogLevel(word);
    if LevelOf(word).None? {
      forall b | b in word && b in Verbose.Raw() ensures b in result.Raw() {
        assert b == 0 || b == 1 || b == 2 || b == 3 || b == 4;
      }
      if result != Off {
        assert result.Depth() - 1 in word * Verbose.Raw();
      }
    } else {
      assert result.Raw() == word;
    }
  }

  /** The gate of _DDLogMessage. */
  predicate Passes(level: Level, flag: Word) {
    level.Raw() * flag != {}
  }

  /** A message passes at the level its own flags convert to if and only if some standard flag is set. */
  lemma PassesOwnLevelIff(flag: Word)
    ensures Passes(ToLogLevel(flag), flag) <==> flag * Verbose.Raw() != {}
  {
    var level := ToLogLevel(flag);
    LeastCoveringLevel(flag, level);
    if flag * Verbose.Raw() != {} {
      var b :| b in flag * Verbose.Raw();
      assert b in level.Raw() * flag;
    } else {
      assert forall b: nat :: b in flag * Verbose.Raw() <==> b in flag && b < 5;
      assert level == Off by {
        if LevelOf(flag).Some? {
          assert level.Raw() == flag && 0 !in level.Raw();
        }
      }
    }
  }

  /** A standard flag passes at exactly the levels from the one named after it upwards. */
  lemma PassesAtIff(level: Level, flag: Flag)
    ensures Passes(level, {flag.Bit()}) <==> flag.Bit() < level.Depth()
  {
    assert flag.Bit() in level.Raw() <==> flag.Bit() in level.Raw() * {flag.Bit()};
  }
}
