/**
 * The glob patterns Redis's KEYS command takes, as the handlers' `redisDelPattern` uses them:
 * `*` matches any run of characters, `?` one character, anything else itself.
 */
module Glob {
  import opened Text

  function Matches(pattern: string, key: string): bool
    decreases |pattern| + |key|
  {
    if pattern == [] then key == []
    else if pattern[0] == '*' then Matches(pattern[1..], key) || (key != [] && Matches(pattern, key[1..]))
    else if pattern[0] == '?' then key != [] && Matches(pattern[1..], key[1..])
    else key != [] && key[0] == pattern[0] && Matches(pattern[1..], key[1..])
  }

  predicate Literal(pattern: string) {
    forall i :: 0 <= i < |pattern| ==> pattern[i] != '*' && pattern[i] != '?'
  }

  lemma {:induction false} StarMatchesAll(key: string)
    ensures Matches("*", key)
    decreases |key|
  {
    if key != [] {
      StarMatchesAll(key[1..]);
    }
  }

  /** `prefix*` matches exactly the keys that start with `prefix`. */
  lemma {:induction false} PrefixStar(prefix: string, key: string)
    requires Literal(prefix)
    ensures Matches(prefix + "*", key) <==> StartsWith(key, prefix)
    decreases |prefix|
  {
    if prefix == [] {
      assert prefix + "*" == "*";
      StarMatchesAll(key);
    } else {
      assert (prefix + "*")[1..] == prefix[1..] + "*";
      assert Literal(prefix[1..]) by {
        forall i | 0 <= i < |prefix[1..]| ensures prefix[1..][i] != '*' && prefix[1..][i] != '?' {
          assert prefix[1..][i] == prefix[i + 1];
        }
      }
      if key != [] {
        PrefixStar(prefix[1..], key[1..]);
        if key[0] == prefix[0] {
          assert StartsWith(key, prefix) <==> StartsWith(key[1..], prefix[1..]) by {
            if |prefix| <= |key| {
              assert key[..|prefix|] == [key[0]] + key[1..][..|prefix| - 1];
            }
            assert prefix == [prefix[0]] + prefix[1..];
          }
        }
      }
    }
  }

  /** A pattern without wildcards matches only itself. */
  lemma {:induction false} LiteralMatchesItself(pattern: string, key: string)
    requires Literal(pattern)
    ensures Matches(pattern, key) <==> key == pattern
    decreases |pattern|
  {
    if pattern != [] {
      assert Literal(pattern[1..]) by {
        forall i | 0 <= i < |pattern[1..]| ensures pattern[1..][i] != '*' && pattern[1..][i] != '?' {
          assert pattern[1..][i] == pattern[i + 1];
        }
      }
      if key != [] {
        LiteralMatchesItself(pattern[1..], key[1..]);
        assert key == [key[0]] + key[1..];
        assert pattern == [pattern[0]] + pattern[1..];
      }
    }
  }
}
