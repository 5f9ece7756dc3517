/**
 * The employee profile: the avatar initials, the tenure in whole years and the
 * status badge colour. The same initials expression and status colour switch
 * also appear in the employee directory.
 */
module EmployeeProfile {
  import opened Types
  import opened Text
  import opened Tones

  /** The number of parts that are not empty. */
  function NonEmptyCount(parts: seq<string>): nat
  {
    if parts == [] then 0 else (if parts[0] == [] then 0 else 1) + NonEmptyCount(parts[1..])
  }

  /**
   * `parts.map(n => n[0]).join('')`: the first character of every part; an empty
   * part yields `undefined`, which `join` writes as nothing.
   */
  function FirstChars(parts: seq<string>): (r: string)
    ensures |r| == NonEmptyCount(parts)
    ensures forall i :: 0 <= i < |r| ==> exists k :: 0 <= k < |parts| && parts[k] != [] && parts[k][0] == r[i]
  {
    if parts == [] then []
    else
      var head := if parts[0] == [] then [] else [parts[0][0]];
      var rest := FirstChars(parts[1..]);
      assert forall i :: 0 <= i < |rest| ==> exists k :: 0 <= k < |parts| && parts[k] != [] && parts[k][0] == rest[i] by {
        forall i | 0 <= i < |rest|
          ensures exists k :: 0 <= k < |parts| && parts[k] != [] && parts[k][0] == rest[i]
        {
          var k :| 0 <= k < |parts[1..]| && parts[1..][k] != [] && parts[1..][k][0] == rest[i];
          assert parts[k + 1] == parts[1..][k];
        }
      }
      assert parts[0] != [] ==> parts[0][0] == (head + rest)[0];
      head + rest
  }

  /** `name.split(' ').map(n => n[0]).join('')`. */
  function Initials(name: string): (r: string)
    ensures |r| == NonEmptyCount(Split(name, ' '))
    ensures forall i :: 0 <= i < |r| ==> r[i] != ' ' && r[i] in name
  {
    var parts := Split(name, ' ');
    var r := FirstChars(parts);
    assert forall i :: 0 <= i < |r| ==> r[i] != ' ' && r[i] in name by {
      forall i | 0 <= i < |r|
        ensures r[i] != ' ' && r[i] in name
      {
        var k :| 0 <= k < |parts| && parts[k] != [] && parts[k][0] == r[i];
        JoinContains(parts, ' ', k, 0);
      }
    }
    r
  }

  /** Every character of every part occurs in the joined string. */
  lemma {:induction false} JoinContains(parts: seq<string>, sep: char, k: nat, i: nat)
    requires |parts| >= 1 && k < |parts| && i < |parts[k]|
    ensures parts[k][i] in Join(parts, sep)
  {
    if k == 0 {
      assert Join(parts, sep)[i] == parts[0][i];
    } else {
      JoinContains(parts[1..], sep, k - 1, i);
      assert Join(parts, sep) == parts[0] + [sep] + Join(parts[1..], sep);
    }
  }

  /** A single word, with no space in it, is abbreviated to its first letter. */
  lemma InitialsOfWord(word: string)
    requires word != [] && ' ' !in word
    ensures Initials(word) == [word[0]]
  {
    SplitNoSep(word, ' ');
    assert Split(word, ' ') == [word];
    assert Split(word, ' ')[1..] == [];
  }

  /** Initials of a name whose first word is `w` are `w`'s initial followed by those of the rest. */
  lemma InitialsOfFirstWord(w: string, rest: string)
    requires ' ' !in w
    ensures Initials(w + " " + rest) == (if w == [] then [] else [w[0]]) + Initials(rest)
  {
    SplitPrefix(w, ' ', rest);
    assert w + " " + rest == w + [' '] + rest;
    var parts := [w] + Split(rest, ' ');
    assert parts[1..] == Split(rest, ' ');
  }

  /** Milliseconds in 365 days, the year length the tenure uses. */
  const MsPerYear: int := 1000 * 60 * 60 * 24 * 365

  /**
   * `Math.floor((now - joinDate) / (1000 * 60 * 60 * 24 * 365))` on millisecond
   * timestamps: the number of whole 365-day years between the two.
   */
  function Tenure(nowMs: int, joinMs: int): (years: int)
    ensures years * MsPerYear <= nowMs - joinMs < (years + 1) * MsPerYear
    ensures joinMs <= nowMs ==> years >= 0
    ensures nowMs < joinMs ==> years < 0
  {
    (nowMs - joinMs) / MsPerYear
  }

  /** Tenure never decreases as time passes. */
  lemma TenureMonotone(now1: int, now2: int, joinMs: int)
    requires now1 <= now2
    ensures Tenure(now1, joinMs) <= Tenure(now2, joinMs)
  {
  }

  /** `getStatusColor`, which takes the status as a string; 'inactive' shares the fallback tone. */
  function StatusColor(status: string): (t: Tone)
    ensures t == Green <==> status == Active.Name()
    ensures t == Yellow <==> status == OnLeave.Name()
    ensures t == Slate <==> status != Active.Name() && status != OnLeave.Name()
  {
    match status
    case "active" => Green
    case "on-leave" => Yellow
    case "inactive" => Slate
    case _ => Slate
  }
}
