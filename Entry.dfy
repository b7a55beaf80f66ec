/** The string-building rules of operand entry and of backspace. */
module Entry {
  import opened Text
  import opened Numbers

  /** Longer typed texts are redisplayed in exponential notation. */
  const MaxEntryLength := 18

  /** The keys that enter an operand: a decimal digit or the decimal point. */
  predicate IsKey(d: char) {
    '0' <= d <= '9' || d == '.'
  }

  /** A text that starts with a zero the next digit should have replaced ("05"). */
  predicate HasRedundantZero(s: string) {
    |s| >= 2 && s[0] == '0' && s[1] != '.'
  }

  /** The operand started by key `d` when a fresh entry is awaited. */
  function FreshEntry(d: char): (r: string)
    requires IsKey(d)
    ensures IsDisplay(r) && !HasRedundantZero(r)
    ensures '0' <= r[0] <= '9'
    ensures r[|r| - 1] == d && (r == [d] || r == "0.")
  {
    if d == '.' then "0." else [d]
  }

  /** A possibly empty run of operand keys. */
  predicate AllKeys(keys: seq<char>) {
    forall j :: 0 <= j < |keys| ==> IsKey(keys[j])
  }

  /** The keys of one operand: at least one. */
  predicate IsOperand(keys: seq<char>) {
    keys != [] && AllKeys(keys)
  }

  /**
    Key `d` typed into the operand `cur`: a lone "0" is replaced by a digit,
    any other text gets exactly one more character.  A key the engine lets
    through (a digit, or a point into a text without one) keeps display text
    display text, and no unsigned redundant zero ("05") ever arises.
   */
  function AppendKey(cur: string, d: char): (r: string)
    ensures cur == "0" && d != '.' ==> r == [d]
    ensures cur != "0" || d == '.' ==> r == cur + [d]
    ensures IsDisplay(cur) && IsKey(d) && (d == '.' ==> '.' !in cur) ==> IsDisplay(r)
    ensures !HasRedundantZero(cur) ==> !HasRedundantZero(r)
  {
    if cur == "0" && d != '.' then [d] else cur + [d]
  }

  /**
    Key `d` typed while the operand `cur` is being extended: a second point
    is ignored; otherwise the key is typed, and a text longer than
    `MaxEntryLength` is redisplayed in exponential notation.
   */
  function Typed(lib: FloatLib, cur: string, d: char): (r: string)
    ensures WellBehaved(lib) && IsDisplay(cur) && IsKey(d) ==> IsDisplay(r)
    ensures d == '.' && '.' in cur ==> r == cur
    ensures !(d == '.' && '.' in cur) && |AppendKey(cur, d)| <= MaxEntryLength ==> r == AppendKey(cur, d)
  {
    if d == '.' && '.' in cur then cur
    else
      var typed := AppendKey(cur, d);
      if |typed| > MaxEntryLength then lib.exponential(lib.parse(typed)) else typed
  }

  /** The operand after `keys` are typed one by one into `cur`. */
  function TypeKeys(lib: FloatLib, cur: string, keys: seq<char>): (r: string)
    ensures WellBehaved(lib) && IsDisplay(cur) && AllKeys(keys) ==> IsDisplay(r)
    decreases |keys|
  {
    if keys == [] then cur
    else Typed(lib, TypeKeys(lib, cur, keys[..|keys| - 1]), keys[|keys| - 1])
  }

  /**
    The operand that `keys` enter when a fresh entry is awaited: the first
    key starts it, the others extend it.
   */
  function Operand(lib: FloatLib, keys: seq<char>): (r: string)
    requires IsOperand(keys)
    ensures WellBehaved(lib) ==> IsDisplay(r)
  {
    TypeKeys(lib, FreshEntry(keys[0]), keys[1..])
  }

  /**
    Typed into a text other than "0", a run of keys with at most one point
    in all that stays within `MaxEntryLength` is appended as it is.
   */
  lemma {:induction false} TypedRun(lib: FloatLib, cur: string, keys: seq<char>)
    requires cur != [] && cur != "0"
    requires AtMostOneDot(cur + keys)
    requires |cur| + |keys| <= MaxEntryLength
    ensures TypeKeys(lib, cur, keys) == cur + keys
    decreases |keys|
  {
    if keys != [] {
      var init, d := keys[..|keys| - 1], keys[|keys| - 1];
      var whole := cur + keys;
      assert whole == (cur + init) + [d];
      assert AtMostOneDot(cur + init) by {
        forall i, j | 0 <= i < j < |cur + init| && (cur + init)[i] == '.'
          ensures (cur + init)[j] != '.'
        {
          assert (cur + init)[i] == whole[i] && (cur + init)[j] == whole[j];
        }
      }
      TypedRun(lib, cur, init);
      assert whole[|whole| - 1] == d;
      assert forall i :: 0 <= i < |cur + init| ==> (cur + init)[i] == whole[i];
      assert cur + init != "0" by {
        if |cur + init| == 1 {
          assert cur + init == cur;
        }
      }
    }
  }

  /**
    Backspace on the operand `cur`: a single character, or "-" with one
    more, gives "0"; otherwise the last character goes.
   */
  function Backspaced(cur: string): (r: string)
    ensures |cur| == 1 || (|cur| == 2 && cur[0] == '-') ==> r == "0"
    ensures |cur| >= 2 && !(|cur| == 2 && cur[0] == '-') ==> r == cur[..|cur| - 1]
    ensures cur != [] ==> r != []
  {
    if |cur| == 1 || (|cur| == 2 && cur[0] == '-') then "0"
    else if cur == [] then cur
    else cur[..|cur| - 1]
  }

  lemma BackspacedKeepsDisplay(cur: string)
    requires IsDisplay(cur)
    ensures IsDisplay(Backspaced(cur))
  {
  }
}
