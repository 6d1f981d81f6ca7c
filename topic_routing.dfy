/** Topic-exchange routing as the message broker defines it: a routing key and a binding
    key are lists of words separated by `.`; in a binding key `*` stands for exactly one word
    and `#` for zero or more words, and every other word must match literally. */
module TopicRouting {
  import opened Strings

  /** Does the binding pattern (as words) match the routing key (as words)? */
  function WordsMatch(pattern: seq<string>, words: seq<string>): bool
    decreases |pattern| + |words|
  {
    if pattern == [] then words == []
    else if pattern[0] == "#" then
      WordsMatch(pattern[1..], words) || (words != [] && WordsMatch(pattern, words[1..]))
    else
      words != [] && (pattern[0] == "*" || pattern[0] == words[0]) && WordsMatch(pattern[1..], words[1..])
  }

  /** A binding key matches a routing key when their words do. */
  function TopicMatches(binding: string, routingKey: string): bool
  {
    WordsMatch(Split(binding, '.'), Split(routingKey, '.'))
  }

  /** A pattern without wildcards. */
  predicate Literal(pattern: seq<string>)
  {
    forall i | 0 <= i < |pattern| :: pattern[i] != "*" && pattern[i] != "#"
  }

  /** A pattern without wildcards matches exactly the routing key that equals it. */
  lemma {:induction false} LiteralMatchesItself(pattern: seq<string>, words: seq<string>)
    requires Literal(pattern)
    ensures WordsMatch(pattern, words) <==> pattern == words
  {
    if pattern != [] && words != [] {
      LiteralMatchesItself(pattern[1..], words[1..]);
      if pattern[0] == words[0] && pattern[1..] == words[1..] {
        assert pattern == [pattern[0]] + pattern[1..];
        assert words == [words[0]] + words[1..];
      }
    }
  }

  /** A literal prefix followed by `*` matches the keys made of that prefix and one more word. */
  lemma {:induction false} PrefixStarMatches(prefix: seq<string>, words: seq<string>)
    requires Literal(prefix)
    ensures WordsMatch(prefix + ["*"], words) <==> |words| == |prefix| + 1 && words[..|prefix|] == prefix
  {
    if prefix == [] {
      assert prefix + ["*"] == ["*"];
      if words != [] {
        assert WordsMatch([], words[1..]) <==> |words| == 1;
      }
    } else {
      assert (prefix + ["*"])[1..] == prefix[1..] + ["*"];
      if words != [] {
        PrefixStarMatches(prefix[1..], words[1..]);
        if |words| == |prefix| + 1 && words[..|prefix|] == prefix {
          assert words[1..][..|prefix| - 1] == words[..|prefix|][1..];
        }
        if WordsMatch(prefix + ["*"], words) {
          assert words[..|prefix|] == [words[0]] + words[1..][..|prefix| - 1];
          assert prefix == [prefix[0]] + prefix[1..];
        }
      }
    }
  }

  /** A pattern without `#`: every word stands for exactly one word of the key. */
  predicate HashFree(pattern: seq<string>)
  {
    forall i | 0 <= i < |pattern| :: pattern[i] != "#"
  }

  /** A pattern without `#` matches only keys with as many words as it has. */
  lemma {:induction false} HashFreeMatchesSameLength(pattern: seq<string>, words: seq<string>)
    requires HashFree(pattern)
    ensures WordsMatch(pattern, words) ==> |words| == |pattern|
  {
    if pattern != [] && words != [] {
      HashFreeMatchesSameLength(pattern[1..], words[1..]);
      assert pattern[0] != "#";
    }
  }

  /** Matching texts built by joining dot-free words is matching the words themselves. */
  lemma TopicMatchesJoined(binding: seq<string>, key: seq<string>)
    requires |binding| >= 1 && |key| >= 1
    requires forall i | 0 <= i < |binding| :: '.' !in binding[i]
    requires forall i | 0 <= i < |key| :: '.' !in key[i]
    ensures TopicMatches(Join(binding, '.'), Join(key, '.')) <==> WordsMatch(binding, key)
  {
    SplitJoin(binding, '.');
    SplitJoin(key, '.');
  }
}
