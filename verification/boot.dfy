/** The machine as the constructor and the program loader leave it. */
module Boot {
  import opened Machine
  import opened Instructions
  import opened Cpu

  /** A loaded program keeps the font below it. */
  lemma LoadKeepsFont(lastDelay: int, lastSound: int, rom: seq<bv8>)
    requires |rom| <= MaxProgramSize
    ensures LoadProgram(Init(lastDelay, lastSound), rom).memory[..|Font|] == Font
  {
    var s := Init(lastDelay, lastSound);
    var r := LoadProgram(s, rom);
    assert r.memory[..|Font|] == r.memory[..ProgramStart][..|Font|];
  }

  /** The first instruction the machine runs is the first two bytes of the
      program, high byte first. */
  lemma FirstFetch(s: State, rom: seq<bv8>)
    requires Valid(s) && s.pc == ProgramStart as bv16 && 2 <= |rom| <= MaxProgramSize
    ensures var r := LoadProgram(s, rom);
      r.pc as int + 1 < MemorySize && Fetch(r) == Join(rom[0], rom[1])
  {
    var r := LoadProgram(s, rom);
    StartAddress(r.pc);
    assert r.memory[ProgramStart + 0] == rom[0];
    assert r.memory[ProgramStart + 1] == rom[1];
  }

  lemma StartAddress(pc: bv16)
    requires pc == ProgramStart as bv16
    ensures pc as int == ProgramStart
  {
  }

  /** Loading a program and then loading a second one is the same as
      loading the second alone. */
  lemma LoadTwice(s: State, rom: seq<bv8>, rom': seq<bv8>)
    requires Valid(s) && |rom| <= MaxProgramSize && |rom'| <= MaxProgramSize
    ensures LoadProgram(LoadProgram(s, rom), rom') == LoadProgram(s, rom')
  {
    var a := LoadProgram(LoadProgram(s, rom), rom');
    var b := LoadProgram(s, rom');
    forall i | 0 <= i < MemorySize
      ensures a.memory[i] == b.memory[i]
    {
      if i < ProgramStart {
        assert a.memory[i] == a.memory[..ProgramStart][i];
        assert b.memory[i] == b.memory[..ProgramStart][i];
        assert LoadProgram(s, rom).memory[i] == LoadProgram(s, rom).memory[..ProgramStart][i];
      } else if i < ProgramStart + |rom'| {
        assert a.memory[ProgramStart + (i - ProgramStart)] == rom'[i - ProgramStart];
        assert b.memory[ProgramStart + (i - ProgramStart)] == rom'[i - ProgramStart];
      }
    }
  }
}
