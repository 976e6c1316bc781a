/**
 * The language of the pattern `^\d{5}-*\d{3}$` that the CEP validator matches,
 * and the deterministic automaton that recognises it.  `\d` is an ASCII digit
 * (the regular-expression engine's Perl class), and the anchors make the match
 * cover the whole string.
 */
module CepPattern {
  import opened Wrappers

  predicate IsDigit(c: char)
  {
    '0' <= c <= '9'
  }

  /**
   * The pattern read as a language: five digits, then any number (zero
   * included) of hyphens, then three digits, and nothing else.
   */
  ghost predicate InPattern(s: string)
  {
    && |s| >= 8
    && (forall i :: 0 <= i < 5 ==> IsDigit(s[i]))
    && (forall i :: 5 <= i < |s| - 3 ==> s[i] == '-')
    && (forall i :: |s| - 3 <= i < |s| ==> IsDigit(s[i]))
  }

  /** The final state: five digits, the hyphens and three digits consumed. */
  const Accept: nat := 8

  /**
   * One transition.  States 0..4 count leading digits, state 5 loops on
   * hyphens, states 6 and 7 count trailing digits; `None` is the dead state.
   */
  function Step(q: nat, c: char): (r: Option<nat>)
    ensures r.Some? ==> r.value <= Accept && (r.value == q || r.value == q + 1)
    ensures r.Some? && r.value == q ==> q == 5 && c == '-'
  {
    if q < 5 then
      if IsDigit(c) then Some(q + 1) else None
    else if q == 5 then
      if c == '-' then Some(5) else if IsDigit(c) then Some(6) else None
    else if q < Accept then
      if IsDigit(c) then Some(q + 1) else None
    else
      None
  }

  /** The state reached from `q` after reading all of `s`. */
  function Run(q: nat, s: string): Option<nat>
    decreases |s|
  {
    if |s| == 0 then Some(q)
    else
      match Step(q, s[0])
      case None => None
      case Some(q') => Run(q', s[1..])
  }

  /** The automaton accepts `s` from its start state. */
  predicate Matches(s: string)
  {
    Run(0, s) == Some(Accept)
  }

  /** The suffixes the automaton accepts from state `q`. */
  ghost predicate AcceptedFrom(q: nat, s: string)
  {
    if q <= 5 then
      && |s| >= 8 - q
      && (forall i :: 0 <= i < 5 - q ==> IsDigit(s[i]))
      && (forall i :: 5 - q <= i < |s| - 3 ==> s[i] == '-')
      && (forall i :: |s| - 3 <= i < |s| ==> IsDigit(s[i]))
    else
      && q <= Accept
      && |s| == Accept - q
      && (forall i :: 0 <= i < |s| ==> IsDigit(s[i]))
  }

  lemma {:induction false} RunAccepts(q: nat, s: string)
    requires q <= Accept
    ensures Run(q, s) == Some(Accept) <==> AcceptedFrom(q, s)
    decreases |s|
  {
    if |s| == 0 {
    } else {
      var c, t := s[0], s[1..];
      assert forall i :: 0 <= i < |t| ==> t[i] == s[i + 1];
      match Step(q, c)
      case None =>
        if q == 5 && |s| == 3 {
          assert !IsDigit(s[0]);
        } else if q == 5 {
          assert s[0] != '-';
        }
      case Some(q') =>
        RunAccepts(q', t);
        if q == 5 && q' == 6 {
          assert IsDigit(s[0]);
          if AcceptedFrom(5, s) {
            assert |s| == 3;
          }
        }
    }
  }

  /** The automaton recognises exactly the pattern's language. */
  lemma MatchesIsPattern(s: string)
    ensures Matches(s) <==> InPattern(s)
  {
    RunAccepts(0, s);
  }
}
