// The SCADA bridge's Modbus holding-register bank: agent predictions are translated,
// clamped to signed 16-bit words and stored, then the system-status block
// (registers 500, 501 and 503) is recomputed.

module ModbusServer {
  import opened PyValues
  import DT = DataTransformer

  const BankSize: nat := 1000
  const Int16Min: int := -32768
  const Int16Max: int := 32767

  /** The clamp applied to every translated value before it is stored. */
  function Clamp16(v: int): (r: int)
    ensures Int16Min <= r <= Int16Max
    ensures Int16Min <= v <= Int16Max ==> r == v
    ensures v > Int16Max ==> r == Int16Max
    ensures v < Int16Min ==> r == Int16Min
  {
    if v > Int16Max then Int16Max else if v < Int16Min then Int16Min else v
  }

  predicate InRange16(bank: seq<int>)
  {
    forall i :: 0 <= i < |bank| ==> Int16Min <= bank[i] <= Int16Max
  }

  /** The bank after storing the clamped translated values. */
  function Stored(bank: seq<int>, values: map<int, int>): (r: seq<int>)
    ensures |r| == |bank|
  {
    seq(|bank|, i requires 0 <= i < |bank| => if i in values then Clamp16(values[i]) else bank[i])
  }

  /** Register 503: 0 operational, 1 degraded, 2 error. */
  function StatusCode(health: int): (code: int)
    ensures code == 0 <==> health >= 50
    ensures code == 1 <==> 25 <= health < 50
    ensures code == 2 <==> health < 25
  {
    if health >= 50 then 0 else if health >= 25 then 1 else 2
  }

  /** Register 500 after a status update. Python's `//` floors, as Dafny's `/` does
      for a positive divisor. */
  function OverallHealth(bank: seq<int>): int
    requires |bank| == BankSize
  {
    if bank[1] > 0 || bank[302] > 0 then (bank[1] + bank[302]) / 2 else bank[500]
  }

  function WithSystemStatus(bank: seq<int>): (r: seq<int>)
    requires |bank| == BankSize
    ensures |r| == BankSize
  {
    var h := OverallHealth(bank);
    bank[500 := h][501 := 5][503 := StatusCode(h)]
  }

  /** Storing a successful translation, then recomputing the status block; a
      translation that raised is caught and changes nothing. */
  function Apply(bank: seq<int>, translated: DT.Outcome<map<int, int>>): (r: seq<int>)
    requires |bank| == BankSize
    ensures |r| == BankSize
  {
    match translated
    case Raised => bank
    case Ok(values) => WithSystemStatus(Stored(bank, values))
  }

  /** The whole effect of one `update_from_mqtt` call on the bank. */
  function AfterUpdate(bank: seq<int>, agent: string, data: Value): (r: seq<int>)
    requires |bank| == BankSize
    ensures |r| == BankSize
  {
    Apply(bank, DT.ToModbus(agent, data))
  }

  lemma NonEmptyHasMember(s: set<int>)
    requires s != {}
    ensures exists a :: a in s
  {
    assert (forall a :: a !in s) ==> s == {};
  }

  /** Addresses below the system-status block. */
  predicate AgentBlock(values: map<int, int>)
  {
    forall a :: a in values ==> 0 <= a < 500
  }

  lemma TranslationInAgentBlock(agent: string, data: Value)
    ensures DT.ToModbus(agent, data).Ok? ==> AgentBlock(DT.ToModbus(agent, data).value)
  {
    DT.ModbusWritesAgentBlock(agent, data);
  }

  class ModbusBridgeServer {
    var registers: array<int>
    var running: bool

    ghost predicate Valid()
      reads this, registers
    {
      registers.Length == BankSize && InRange16(registers[..])
    }

    /** A bank of 1000 registers, all zero; the server is not running. */
    constructor ()
      ensures Valid() && fresh(registers) && !running
      ensures forall i :: 0 <= i < BankSize ==> registers[i] == 0
    {
      registers := new int[BankSize](_ => 0);
      running := false;
    }

    method UpdateFromMqtt(agent: string, data: Value)
      requires Valid()
      modifies registers
      ensures Valid()
      ensures registers[..] == AfterUpdate(old(registers[..]), agent, data)
    {
      var translated := DT.ToModbus(agent, data);
      TranslationInAgentBlock(agent, data);
      StoreTranslation(translated);
    }

    /** The clamp-and-store loop and the status update, for one translation result. */
    method StoreTranslation(translated: DT.Outcome<map<int, int>>)
      requires Valid()
      requires translated.Ok? ==> AgentBlock(translated.value)
      modifies registers
      ensures Valid()
      ensures registers[..] == Apply(old(registers[..]), translated)
    {
      if translated.Raised? {
        return;
      }
      var values := translated.value;
      var pending := values.Keys;
      while pending != {}
        invariant pending <= values.Keys
        invariant forall i :: 0 <= i < BankSize ==>
          registers[i] == if i in values && i !in pending then Clamp16(values[i]) else old(registers[i])
        decreases |pending|
      {
        NonEmptyHasMember(pending);
        var address :| address in pending;
        var value := values[address];
        if value > 32767 {
          value := 32767;
        } else if value < -32768 {
          value := -32768;
        }
        registers[address] := value;
        pending := pending - {address};
      }
      assert registers[..] == Stored(old(registers[..]), values);
      UpdateSystemStatus();
    }

    method UpdateSystemStatus()
      requires Valid()
      modifies registers
      ensures Valid()
      ensures registers[..] == WithSystemStatus(old(registers[..]))
    {
      var pmHealth := registers[1];
      var safetyScore := registers[302];
      if pmHealth > 0 || safetyScore > 0 {
        registers[500] := (pmHealth + safetyScore) / 2;
      }
      registers[501] := 5;
      var overall := registers[500];
      var status := if overall >= 50 then 0 else if overall >= 25 then 1 else 2;
      registers[503] := status;
    }

    method Stop()
      modifies this
      ensures !running && registers == old(registers)
    {
      running := false;
    }
  }

  /** Only the translated addresses and registers 500, 501 and 503 can change; each
      translated address holds its clamped value. */
  lemma StoreFrame(bank: seq<int>, values: map<int, int>)
    requires |bank| == BankSize && AgentBlock(values)
    ensures var r := WithSystemStatus(Stored(bank, values));
      (forall i :: 0 <= i < BankSize && i !in values && i != 500 && i != 501 && i != 503 ==> r[i] == bank[i])
      && (forall i :: i in values ==> r[i] == Clamp16(values[i]))
  {
  }

  /** The frame of a whole update: a translation that raised leaves the bank as it was. */
  lemma ApplyFrame(bank: seq<int>, translated: DT.Outcome<map<int, int>>)
    requires |bank| == BankSize
    requires translated.Ok? ==> AgentBlock(translated.value)
    ensures translated.Raised? ==> Apply(bank, translated) == bank
    ensures translated.Ok? ==>
      var r := Apply(bank, translated);
      var values := translated.value;
      (forall i :: 0 <= i < BankSize && i !in values && i != 500 && i != 501 && i != 503 ==> r[i] == bank[i])
      && (forall i :: i in values ==> r[i] == Clamp16(values[i]))
  {
    if translated.Ok? {
      StoreFrame(bank, translated.value);
    }
  }

  /** The derived registers after a store: 501 is 5, 500 is the floored mean of
      registers 1 and 302 when either is positive and is otherwise kept, and 503 is
      the status code of 500. */
  lemma {:induction false} SystemRegisters(bank: seq<int>, values: map<int, int>)
    requires |bank| == BankSize && AgentBlock(values)
    ensures var s := Stored(bank, values);
      var r := WithSystemStatus(s);
      r[501] == 5
      && (s[1] > 0 || s[302] > 0 ==> r[500] == (s[1] + s[302]) / 2)
      && (s[1] <= 0 && s[302] <= 0 ==> r[500] == bank[500])
      && r[503] == StatusCode(r[500])
  {
    var s := Stored(bank, values);
    assert 500 !in values;
    assert s[500] == bank[500];
  }

  lemma HalfSumInRange(a: int, b: int)
    requires Int16Min <= a <= Int16Max && Int16Min <= b <= Int16Max
    ensures Int16Min <= (a + b) / 2 <= Int16Max
  {
  }

  /** Every register stays a signed 16-bit word. */
  lemma {:induction false} ApplyKeepsInt16(bank: seq<int>, translated: DT.Outcome<map<int, int>>)
    requires |bank| == BankSize && InRange16(bank)
    ensures InRange16(Apply(bank, translated))
  {
    if translated.Ok? {
      var s := Stored(bank, translated.value);
      assert InRange16(s);
      if s[1] > 0 || s[302] > 0 {
        HalfSumInRange(s[1], s[302]);
      }
    }
  }

  lemma {:induction false} StatusIdempotent(bank: seq<int>)
    requires |bank| == BankSize
    ensures WithSystemStatus(WithSystemStatus(bank)) == WithSystemStatus(bank)
  {
    var b2 := WithSystemStatus(bank);
    assert b2[1] == bank[1] && b2[302] == bank[302];
    assert OverallHealth(b2) == OverallHealth(bank);
  }

  /** Storing a translation is an overwrite: applying it a second time changes nothing. */
  lemma {:induction false} ApplyIdempotent(bank: seq<int>, translated: DT.Outcome<map<int, int>>)
    requires |bank| == BankSize
    requires translated.Ok? ==> AgentBlock(translated.value)
    ensures Apply(Apply(bank, translated), translated) == Apply(bank, translated)
  {
    match translated
    case Raised =>
    case Ok(values) =>
      var b1 := Stored(bank, values);
      var b2 := WithSystemStatus(b1);
      assert Stored(b2, values) == b2 by {
        forall i | 0 <= i < BankSize ensures Stored(b2, values)[i] == b2[i] {
          if i in values {
            assert i < 500;
          }
        }
      }
      StatusIdempotent(b1);
  }

  /** Applying the same prediction twice gives the same bank as applying it once. */
  lemma UpdateIdempotent(bank: seq<int>, agent: string, data: Value)
    requires |bank| == BankSize
    ensures AfterUpdate(AfterUpdate(bank, agent, data), agent, data) == AfterUpdate(bank, agent, data)
  {
    TranslationInAgentBlock(agent, data);
    ApplyIdempotent(bank, DT.ToModbus(agent, data));
  }
}
