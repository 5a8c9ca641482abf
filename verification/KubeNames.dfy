/** Names the API accepts (internal/api/k8s/k8s.go:55-60): DNS-1123 subdomains. */
module KubeNames {
  predicate Alnum(c: char) {
    'a' <= c <= 'z' || '0' <= c <= '9'
  }

  /** One label: alphanumeric at both ends, with hyphens in between. */
  predicate Label(s: string) {
    && s != [] && Alnum(s[0]) && Alnum(s[|s| - 1])
    && forall i :: 0 <= i < |s| ==> Alnum(s[i]) || s[i] == '-'
  }

  /** A label ends at the dot. */
  predicate LabelUpTo(s: string, i: int) {
    0 < i < |s| && s[i] == '.' && Label(s[..i])
  }

  /** Labels with dots between them, as the regular expression reads. */
  ghost predicate Dotted(s: string)
    decreases |s|
  {
    Label(s) || exists i :: LabelUpTo(s, i) && Dotted(s[i + 1..])
  }

  predicate DotsApart(s: string) {
    && s != [] && Alnum(s[0]) && Alnum(s[|s| - 1])
    && (forall i :: 0 <= i < |s| ==> Alnum(s[i]) || s[i] == '-' || s[i] == '.')
    && (forall i :: 0 < i < |s| - 1 && s[i] == '.' ==> Alnum(s[i - 1]) && Alnum(s[i + 1]))
  }

  /** Dotted DNS-1123 labels of at most 253 characters in all. */
  predicate ValidName(s: string) {
    |s| <= 253 && DotsApart(s)
  }

  lemma {:induction false} FirstDot(s: string) returns (i: nat)
    requires '.' in s
    ensures i < |s| && s[i] == '.' && '.' !in s[..i]
  {
    if s[0] == '.' {
      i := 0;
    } else {
      i := FirstDot(s[1..]);
      i := i + 1;
      assert s[..i] == [s[0]] + s[1..][..i - 1];
    }
  }

  lemma {:induction false} ApartIsDotted(s: string)
    requires DotsApart(s)
    ensures Dotted(s)
    decreases |s|
  {
    if '.' in s {
      var i := FirstDot(s);
      var first, rest := s[..i], s[i + 1..];
      assert forall k :: 0 <= k < i ==> first[k] == s[k];
      assert forall k :: 0 <= k < |rest| ==> rest[k] == s[i + 1 + k];
      ApartIsDotted(rest);
      assert LabelUpTo(s, i) && Dotted(s[i + 1..]);
    }
  }

  lemma JoinedApart(first: string, rest: string)
    requires Label(first) && DotsApart(rest)
    ensures DotsApart(first + "." + rest)
  {
    var s, n := first + "." + rest, |first|;
    forall i | 0 <= i < |s| ensures s[i] == if i < n then first[i] else if i == n then '.' else rest[i - n - 1] {
    }
    forall i | 0 < i < |s| - 1 && s[i] == '.' ensures Alnum(s[i - 1]) && Alnum(s[i + 1]) {
      if i == n {
        assert s[i - 1] == first[n - 1] && s[i + 1] == rest[0];
      } else {
        assert i > n && rest[i - n - 1] == '.';
        assert s[i - 1] == rest[i - n - 2] && s[i + 1] == rest[i - n];
      }
    }
  }

  lemma {:induction false} DottedIsApart(s: string)
    requires Dotted(s)
    ensures DotsApart(s)
    decreases |s|
  {
    if Label(s) {
      LabelApart(s);
    } else {
      var i :| LabelUpTo(s, i) && Dotted(s[i + 1..]);
      var first, rest := s[..i], s[i + 1..];
      DottedIsApart(rest);
      JoinedApart(first, rest);
      Rejoin(s, i);
    }
  }

  lemma LabelApart(s: string)
    requires Label(s)
    ensures DotsApart(s)
  {
  }

  lemma Rejoin(s: string, i: nat)
    requires i < |s| && s[i] == '.'
    ensures s == s[..i] + "." + s[i + 1..]
  {
  }

  /** The names let through are those of up to 253 characters that the regular expression matches. */
  lemma ValidNameIsDottedLabels(s: string)
    ensures ValidName(s) <==> |s| <= 253 && Dotted(s)
  {
    if Dotted(s) { DottedIsApart(s); }
    if DotsApart(s) { ApartIsDotted(s); }
  }
}
