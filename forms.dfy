/**
 * What the registration and login forms share: the email and phone patterns
 * they test, the clearing of a field's error while the user types, and the
 * shape of a validation report (at most one message per field).
 */
module Forms {
  import opened Text

  /** No white space in `s[i..j]`, the `\S` class repeated over that range. */
  predicate NonSpaceRun(s: string, i: int, j: int)
    requires 0 <= i <= j <= |s|
  {
    forall k :: i <= k < j ==> !IsSpace(s[k])
  }

  /** The regular expression `\S+@\S+\.\S+` matches `s[a..b]`, reading `@` at `p`
      and `.` at `d`; the match is not anchored, so it may sit anywhere in `s`. */
  ghost predicate EmailMatchAt(s: string, a: int, p: int, d: int, b: int) {
    && 0 <= a < p && p + 1 < d && d + 1 < b <= |s|
    && s[p] == '@' && s[d] == '.'
    && NonSpaceRun(s, a, p) && NonSpaceRun(s, p + 1, d) && NonSpaceRun(s, d + 1, b)
  }

  ghost predicate EmailRegexMatches(s: string) {
    exists a, p, d, b :: EmailMatchAt(s, a, p, d, b)
  }

  /** The shortest match: an `@` at `p` preceded by a non-space, a `.` at `d > p + 1`
      with no white space in between, and a non-space right after it. */
  predicate EmailAnchorsAt(s: string, p: int, d: int)
    requires 0 < p && p + 1 < d && d + 1 < |s|
  {
    s[p] == '@' && !IsSpace(s[p - 1]) && s[d] == '.' && NonSpaceRun(s, p + 1, d) && !IsSpace(s[d + 1])
  }

  /** `/\S+@\S+\.\S+/.test(s)`, decided by looking for the shortest match. */
  predicate EmailLike(s: string): (r: bool)
    ensures r <==> EmailRegexMatches(s)
  {
    var anchored := exists p, d | 0 < p < |s| && p + 1 < d < |s| - 1 :: EmailAnchorsAt(s, p, d);
    assert anchored ==> EmailRegexMatches(s) by {
      if anchored {
        var p, d :| 0 < p < |s| && p + 1 < d < |s| - 1 && EmailAnchorsAt(s, p, d);
        assert EmailMatchAt(s, p - 1, p, d, d + 2);
      }
    }
    assert EmailRegexMatches(s) ==> anchored by {
      if EmailRegexMatches(s) {
        var a, p, d, b :| EmailMatchAt(s, a, p, d, b);
        assert !IsSpace(s[p - 1]) && !IsSpace(s[d + 1]);
        assert EmailAnchorsAt(s, p, d);
      }
    }
    anchored
  }

  predicate IsDigit(c: char) {
    '0' <= c <= '9'
  }

  predicate AllDigits(s: string) {
    forall i :: 0 <= i < |s| ==> IsDigit(s[i])
  }

  /** The regular expression `^[+]?[0-9]{10,15}$` matches `t` taking the optional
      `+` when `k == 1` and skipping it when `k == 0`. */
  ghost predicate PhoneMatchSplit(t: string, k: int) {
    && 0 <= k <= 1 && k <= |t|
    && (k == 1 ==> t[0] == '+')
    && AllDigits(t[k..]) && 10 <= |t| - k <= 15
  }

  /** `/^[+]?[0-9]{10,15}$/.test(t)`: exactly an optional `+` and then ten to
      fifteen ASCII digits, nothing else. */
  predicate PhoneLike(t: string): (r: bool)
    ensures r <==> exists k :: PhoneMatchSplit(t, k)
  {
    var digits := if |t| > 0 && t[0] == '+' then t[1..] else t;
    var ok := 10 <= |digits| <= 15 && AllDigits(digits);
    assert ok ==> exists k :: PhoneMatchSplit(t, k) by {
      if ok {
        if |t| > 0 && t[0] == '+' {
          assert PhoneMatchSplit(t, 1);
        } else {
          assert t[0..] == t;
          assert PhoneMatchSplit(t, 0);
        }
      }
    }
    assert (exists k :: PhoneMatchSplit(t, k)) ==> ok by {
      if exists k :: PhoneMatchSplit(t, k) {
        var k :| PhoneMatchSplit(t, k);
        if k == 0 {
          assert t[0..] == t;
          assert IsDigit(t[0]);
        }
      }
    }
    ok
  }

  /** The error map after typing into `name`: a shown error for `name` is
      replaced by the empty message, nothing else changes. */
  function ClearError<K>(errors: map<K, string>, name: K): (r: map<K, string>)
    ensures r.Keys == errors.Keys
    ensures name in r ==> r[name] == ""
    ensures forall k :: k in r && k != name ==> r[k] == errors[k]
  {
    if name in errors && errors[name] != "" then errors[name := ""] else errors
  }

  /** One field of a validation report: the field has an error iff one of its two
      checks fails, and the "required" message wins over the format message. */
  ghost predicate FieldReport<K>(errors: map<K, string>, key: K,
                              missing: bool, malformed: bool,
                              missingMessage: string, malformedMessage: string)
  {
    && (key in errors <==> missing || malformed)
    && (key in errors ==> errors[key] == if missing then missingMessage else malformedMessage)
  }

  /** One `if (missing) … else if (malformed) …` block of a validator: records at
      most one message for `key` and leaves every other entry alone. */
  method ReportField<K>(errors: map<K, string>, key: K, missing: bool, malformed: bool,
                        missingMessage: string, malformedMessage: string)
    returns (r: map<K, string>)
    requires key !in errors
    ensures FieldReport(r, key, missing, malformed, missingMessage, malformedMessage)
    ensures forall k :: k in r <==> k in errors || (k == key && (missing || malformed))
    ensures forall k :: k != key && k in errors ==> r[k] == errors[k]
  {
    r := errors;
    if missing {
      r := r[key := missingMessage];
    } else if malformed {
      r := r[key := malformedMessage];
    }
  }
}
