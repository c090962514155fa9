/** Topic names, topic filters and the matching rule of MQTT 5.0, sections 4.7.1 and 4.7.2.

    A topic is the sequence of its levels.  The matching rule is stated position by
    position, without reference to how either trie of the broker walks it. */
module Topics {

  datatype Level =
    | Normal(name: string)
    | Metadata(name: string)   // a level starting with '$'
    | Blank                    // an empty level, as at the front of "/a"
    | SingleWildcard           // '+'
    | MultiWildcard            // '#'

  type Topic = seq<Level>

  predicate Wild(l: Level) {
    l.SingleWildcard? || l.MultiWildcard?
  }

  /** A topic that may be published to holds no wildcard. */
  predicate IsName(t: Topic) {
    forall i | 0 <= i < |t| :: !Wild(t[i])
  }

  /** A legal filter has '#' in last place only. */
  predicate IsFilter(f: Topic) {
    forall i | 0 <= i < |f| - 1 :: f[i] != MultiWildcard
  }

  predicate EndsInHash(f: Topic) {
    |f| > 0 && f[|f| - 1] == MultiWildcard
  }

  predicate LevelMatches(f: Level, t: Level) {
    f == SingleWildcard || f == t
  }

  /** Sections 4.7.1.2 and 4.7.1.3: '#' stands for the parent and any number of
      further levels, '+' for exactly one level. */
  predicate LevelsMatch(f: Topic, t: Topic) {
    if EndsInHash(f) then
      |f| - 1 <= |t| && forall i | 0 <= i < |f| - 1 :: LevelMatches(f[i], t[i])
    else
      |f| == |t| && forall i | 0 <= i < |f| :: LevelMatches(f[i], t[i])
  }

  /** Section 4.7.2: a filter starting with a wildcard never matches a topic starting with '$'. */
  predicate HiddenFromWildcard(f: Topic, t: Topic) {
    |f| > 0 && |t| > 0 && Wild(f[0]) && t[0].Metadata?
  }

  predicate Matches(f: Topic, t: Topic) {
    LevelsMatch(f, t) && !HiddenFromWildcard(f, t)
  }

  /** The positional rule unfolds one level at a time: the form both tries walk. */
  lemma {:induction false} LevelsMatchStep(f: Topic, t: Topic)
    requires IsFilter(f)
    ensures f == [] ==> (LevelsMatch(f, t) <==> t == [])
    ensures f == [MultiWildcard] ==> LevelsMatch(f, t)
    ensures f != [] && f != [MultiWildcard] && t == [] ==> !LevelsMatch(f, t)
    ensures f != [] && f != [MultiWildcard] && t != [] ==>
              f[0] != MultiWildcard
              && IsFilter(f[1..])
              && (LevelsMatch(f, t) <==> LevelMatches(f[0], t[0]) && LevelsMatch(f[1..], t[1..]))
  {
  }
}
