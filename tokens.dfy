/** The start-up check that the three required environment variables are set. */
module Tokens {
  import opened Exceptions

  /** Python truthiness of an environment lookup: unset (`None`) and the empty
      string both count as missing. */
  predicate IsSet(v: Option<string>)
  {
    v.Some? && v.value != ""
  }

  /** The variable names, in the order the check inspects them. */
  const TokenNames: seq<string> := ["PRACTICUM_TOKEN", "TELEGRAM_TOKEN", "TELEGRAM_CHAT_ID"]

  /** The names whose values are missing, in the order the names are given. */
  function Missing(names: seq<string>, values: seq<Option<string>>): (missing: seq<string>)
    requires |names| == |values|
    ensures |missing| <= |names|
  {
    if names == [] then []
    else (if IsSet(values[0]) then [] else [names[0]]) + Missing(names[1..], values[1..])
  }

  /** `xs` is `ys` with some elements dropped, the rest kept in order. */
  predicate Subsequence(xs: seq<string>, ys: seq<string>)
    decreases |ys|
  {
    if ys == [] then xs == []
    else (xs != [] && xs[0] == ys[0] && Subsequence(xs[1..], ys[1..])) || Subsequence(xs, ys[1..])
  }

  predicate Distinct(names: seq<string>)
  {
    forall i, j :: 0 <= i < j < |names| ==> names[i] != names[j]
  }

  /** A name is reported exactly when its own value is missing. */
  lemma {:induction false} MissingExactly(names: seq<string>, values: seq<Option<string>>, k: nat)
    requires |names| == |values| && Distinct(names) && k < |names|
    ensures names[k] in Missing(names, values) <==> !IsSet(values[k])
  {
    var rest := Missing(names[1..], values[1..]);
    assert Missing(names, values) == (if IsSet(values[0]) then [] else [names[0]]) + rest;
    if k == 0 {
      MissingWithin(names[1..], values[1..]);
      assert names[0] !in names[1..];
    } else {
      MissingExactly(names[1..], values[1..], k - 1);
      assert names[1..][k - 1] == names[k];
    }
  }

  /** Only names from the list are reported. */
  lemma {:induction false} MissingWithin(names: seq<string>, values: seq<Option<string>>)
    requires |names| == |values|
    ensures forall n :: n in Missing(names, values) ==> n in names
  {
    if names != [] {
      MissingWithin(names[1..], values[1..]);
      forall n | n in names[1..] ensures n in names { }
    }
  }

  /** The missing names keep the order in which they are checked. */
  lemma {:induction false} MissingInOrder(names: seq<string>, values: seq<Option<string>>)
    requires |names| == |values|
    ensures Subsequence(Missing(names, values), names)
  {
    if names != [] {
      MissingInOrder(names[1..], values[1..]);
      var rest := Missing(names[1..], values[1..]);
      if !IsSet(values[0]) {
        assert Missing(names, values) == [names[0]] + rest;
        assert ([names[0]] + rest)[1..] == rest;
      } else {
        assert Missing(names, values) == rest;
      }
    }
  }

  /** Nothing is reported exactly when every value is present. */
  lemma {:induction false} MissingEmptyIff(names: seq<string>, values: seq<Option<string>>)
    requires |names| == |values|
    ensures Missing(names, values) == [] <==> forall k :: 0 <= k < |values| ==> IsSet(values[k])
  {
    if names != [] {
      MissingEmptyIff(names[1..], values[1..]);
      assert forall k :: 1 <= k < |values| ==> values[k] == values[1..][k - 1];
    }
  }

  /** check_tokens: collects the names of the unset variables, in the fixed
      order, and reports whether none was missing. `missing` is the list the
      check logs before failing. */
  method CheckTokens(practicum: Option<string>, telegram: Option<string>, chatId: Option<string>)
    returns (ok: bool, missing: seq<string>)
    ensures missing == Missing(TokenNames, [practicum, telegram, chatId])
    ensures ok <==> IsSet(practicum) && IsSet(telegram) && IsSet(chatId)
    ensures ok <==> missing == []
  {
    missing := [];
    if !IsSet(practicum) {
      missing := missing + ["PRACTICUM_TOKEN"];
    }
    if !IsSet(telegram) {
      missing := missing + ["TELEGRAM_TOKEN"];
    }
    if !IsSet(chatId) {
      missing := missing + ["TELEGRAM_CHAT_ID"];
    }
    ok := missing == [];
    ghost var values := [practicum, telegram, chatId];
    ghost var last := if IsSet(chatId) then [] else ["TELEGRAM_CHAT_ID"];
    ghost var middle := if IsSet(telegram) then [] else ["TELEGRAM_TOKEN"];
    ghost var first := if IsSet(practicum) then [] else ["PRACTICUM_TOKEN"];
    assert Missing(TokenNames[2..], values[2..]) == last + Missing(TokenNames[3..], values[3..]);
    assert Missing(TokenNames[1..], values[1..]) == middle + last by {
      assert TokenNames[1..][1..] == TokenNames[2..] && values[1..][1..] == values[2..];
    }
    assert Missing(TokenNames, values) == first + middle + last;
  }

  /** For the three real variables: a name is logged exactly when its value
      is unset or empty, the logged names keep the checking order, and the
      check passes exactly when none is logged. */
  lemma TokensReported(practicum: Option<string>, telegram: Option<string>, chatId: Option<string>, k: nat)
    requires k < 3
    ensures var values := [practicum, telegram, chatId];
            var missing := Missing(TokenNames, values);
            && (TokenNames[k] in missing <==> !IsSet(values[k]))
            && Subsequence(missing, TokenNames)
            && (missing == [] <==> IsSet(practicum) && IsSet(telegram) && IsSet(chatId))
  {
    var values := [practicum, telegram, chatId];
    MissingExactly(TokenNames, values, k);
    MissingInOrder(TokenNames, values);
    MissingEmptyIff(TokenNames, values);
    assert values[0] == practicum && values[1] == telegram && values[2] == chatId;
  }
}
