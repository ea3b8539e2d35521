/** The log levels and their numeric order, on which the logger's gate rests. */
module RtLogLevel {

  datatype Level = All | Trace | Debug | Info | Warn | Error | Fatal | None

  /** The numeric value of each enum member: All is 0, None is 1000, and the
      six logging levels lie in steps of 50 from 50 to 500. */
  function Value(l: Level): (v: nat)
    ensures v == 0 <==> l == All
    ensures v == 1000 <==> l == None
    ensures l != All && l != None ==> 50 <= v <= 500 && v % 50 == 0
  {
    match l
    case All => 0
    case Trace => 50
    case Debug => 100
    case Info => 200
    case Warn => 300
    case Error => 400
    case Fatal => 500
    case None => 1000
  }

  /** The members in declaration order. */
  const Levels: seq<Level> := [All, Trace, Debug, Info, Warn, Error, Fatal, None]

  lemma LevelsListsEveryLevelOnce(l: Level)
    ensures l in Levels
    ensures multiset(Levels)[l] == 1
  {
  }

  /** Declaration order is numeric order: the values strictly increase. */
  lemma LevelsStrictlyIncreasing()
    ensures forall i, j :: 0 <= i < j < |Levels| ==> Value(Levels[i]) < Value(Levels[j])
  {
  }

  /** The eight values are distinct, so comparing values is a total order on levels. */
  lemma ValueInjective(a: Level, b: Level)
    ensures Value(a) == Value(b) ==> a == b
  {
  }

  /** All is the minimum and None is above every other level. */
  lemma AllIsMinimumNoneIsMaximum(l: Level)
    ensures Value(All) <= Value(l)
    ensures l != None ==> Value(l) <= Value(Fatal) < Value(None)
  {
  }
}
