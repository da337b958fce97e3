/**
 * The configuration check of lib/dataProducts/config.js: the messages
 * `validateConfiguration` collects for a data-product configuration.
 * Loading the configuration file is not part of this model.
 */
module Config {
  import opened Js
  import opened Text
  import opened Constants

  const ID_REQUIRED := "Data product ID is required"
  const TITLE_REQUIRED := "Data product title is required"
  const VERSION_REQUIRED := "Valid semantic version is required (e.g., 1.0.0)"
  const TYPE_MESSAGE := "Type must be one of: " + Join(VALID_TYPES, ", ")
  const VISIBILITY_MESSAGE := "Visibility must be one of: " + Join(RESOURCE_VISIBILITIES, ", ")

  /** The number of checks. */
  const CHECKS := 5

  /** The message of check number `check`, in the order the checks run. */
  function Message(check: nat): string
  {
    if check == 0 then ID_REQUIRED
    else if check == 1 then TITLE_REQUIRED
    else if check == 2 then VERSION_REQUIRED
    else if check == 3 then TYPE_MESSAGE
    else VISIBILITY_MESSAGE
  }

  /** `/^\d+\.\d+\.\d+$/.test(v)`, which tests `String(v)`. */
  predicate IsVersionText(v: Json)
  {
    IsSemVer(JsString(v))
  }

  /** Whether check number `check` (0 id, 1 title, 2 version, 3 type, 4 visibility) fails. */
  predicate Fails(config: Json, check: nat)
  {
    if check == 0 then !Truthy(Get(config, "id"))
    else if check == 1 then !Truthy(Get(config, "title"))
    else if check == 2 then !Truthy(Get(config, "version")) || !IsVersionText(Get(config, "version"))
    else if check == 3 then !IsOneOf(Get(config, "type"), VALID_TYPES)
    else if check == 4 then Truthy(Get(config, "visibility")) && !IsOneOf(Get(config, "visibility"), RESOURCE_VISIBILITIES)
    else false
  }

  /** The message check number `check` contributes: its own when its verdict is a failure, none otherwise. */
  function Report(verdicts: seq<bool>, check: nat): seq<string>
  {
    if check < |verdicts| && verdicts[check] then [Message(check)] else []
  }

  /** The verdicts of the checks, in the order they run: `true` where the check fails. */
  function Verdicts(config: Json): seq<bool>
  {
    seq(CHECKS, k requires 0 <= k < CHECKS => Fails(config, k))
  }

  /** The reports of the first `n` checks, in the order they run. */
  function Reports(verdicts: seq<bool>, n: nat): seq<string>
  {
    if n == 0 then [] else Reports(verdicts, n - 1) + Report(verdicts, n - 1)
  }

  /**
   * `validateConfiguration(config)` as a value: reading `config.id` throws
   * for null and undefined; otherwise the reports of the five checks in
   * their order.
   */
  function ConfigurationErrors(config: Json): Result<seq<string>>
  {
    if IsNullish(config) then Err(TypeError)
    else Ok(Reports(Verdicts(config), CHECKS))
  }

  /** The configuration the checks accept, condition by condition. */
  predicate ValidConfiguration(config: Json)
  {
    var version := Get(config, "version");
    var visibility := Get(config, "visibility");
    Truthy(Get(config, "id")) && Truthy(Get(config, "title")) &&
    Truthy(version) && IsVersionText(version) &&
    IsOneOf(Get(config, "type"), VALID_TYPES) &&
    (!Truthy(visibility) || IsOneOf(visibility, RESOURCE_VISIBILITIES))
  }

  /** `validateConfiguration`: pushes the message of each failing check in turn. */
  method ValidateConfiguration(config: Json) returns (r: Result<seq<string>>)
    ensures r == ConfigurationErrors(config)
  {
    if IsNullish(config) {
      return Err(TypeError);
    }
    ghost var v := Verdicts(config);
    var errors: seq<string> := [];
    if !Truthy(Get(config, "id")) {
      errors := errors + [ID_REQUIRED];
    }
    assert errors == Reports(v, 1);
    if !Truthy(Get(config, "title")) {
      errors := errors + [TITLE_REQUIRED];
    }
    assert errors == Reports(v, 2);
    var version := Get(config, "version");
    if !Truthy(version) || !IsSemVer(JsString(version)) {
      errors := errors + [VERSION_REQUIRED];
    }
    assert errors == Reports(v, 3);
    var t := Get(config, "type");
    if !(t.Str? && t.s in VALID_TYPES) {
      errors := errors + [TYPE_MESSAGE];
    }
    assert errors == Reports(v, 4);
    var visibility := Get(config, "visibility");
    if Truthy(visibility) && !(visibility.Str? && visibility.s in RESOURCE_VISIBILITIES) {
      errors := errors + [VISIBILITY_MESSAGE];
    }
    assert errors == Reports(v, 5);
    r := Ok(errors);
  }

  /** Null and undefined throw; any other value yields at most one message per check, none exactly when valid. */
  lemma ConfigurationErrorsCases(config: Json)
    ensures ConfigurationErrors(config).Err? <==> IsNullish(config)
    ensures ConfigurationErrors(config).Err? ==> ConfigurationErrors(config).error == TypeError
    ensures ConfigurationErrors(config).Ok? ==>
              |ConfigurationErrors(config).value| <= CHECKS &&
              (ConfigurationErrors(config).value == [] <==> ValidConfiguration(config))
  {
    if !IsNullish(config) {
      var v := Verdicts(config);
      var errs := ConfigurationErrors(config).value;
      assert errs == Messages(FailedChecks(v, CHECKS)) by {
        ErrorsFollowChecks(config);
      }
      assert |FailedChecks(v, CHECKS)| <= CHECKS by {
        FailedChecksSpec(v, CHECKS);
      }
      assert FailedChecks(v, CHECKS) == [] <==> !v[0] && !v[1] && !v[2] && !v[3] && !v[4] by {
        NoneFailed(v);
      }
      assert ValidConfiguration(config) <==> !v[0] && !v[1] && !v[2] && !v[3] && !v[4];
    }
  }

  /** No check is listed exactly when none of the five fails. */
  lemma NoneFailed(v: seq<bool>)
    requires |v| == CHECKS
    ensures FailedChecks(v, CHECKS) == [] <==> !v[0] && !v[1] && !v[2] && !v[3] && !v[4]
  {
    FailedChecksSpec(v, CHECKS);
    var ks := FailedChecks(v, CHECKS);
    if ks != [] {
      assert ks[0] in ks;
    } else {
      assert 0 !in ks && 1 !in ks && 2 !in ks && 3 !in ks && 4 !in ks;
    }
  }

  /** The messages as the checks spell them out. */
  lemma MessageTexts()
    ensures TYPE_MESSAGE == "Type must be one of: primary, derived"
    ensures VISIBILITY_MESSAGE == "Visibility must be one of: public, internal, private"
  {
    JoinThree("primary", "derived", "", ", ");
    assert Join(VALID_TYPES, ", ") == "primary, derived";
    JoinThree("public", "internal", "private", ", ");
  }

  /** `join` of two and of three parts. */
  lemma JoinThree(a: string, b: string, c: string, sep: string)
    ensures Join([a, b], sep) == a + sep + b
    ensures Join([a, b, c], sep) == a + sep + b + sep + c
  {
    assert [a, b][1..] == [b];
    assert [a, b, c][1..] == [b, c];
    assert [b, c][1..] == [c];
    assert Join([b, c], sep) == b + sep + c;
    assert Join([a, b, c], sep) == a + sep + Join([b, c], sep);
  }

  /** Each check has a message of its own. */
  lemma MessagesDistinct(k: nat, l: nat)
    requires k < CHECKS && l < CHECKS && k != l
    ensures Message(k) != Message(l)
  {
    MessageTexts();
    assert |Message(k)| != |Message(l)|;
  }

  /** A message appears exactly when its check fails. */
  lemma MessageReported(config: Json, k: nat)
    requires !IsNullish(config) && k < CHECKS
    ensures Message(k) in ConfigurationErrors(config).value <==> Fails(config, k)
  {
    ErrorsFollowChecks(config);
    MessageListed(Verdicts(config), k);
  }

  /** A check's message is among those of the failing checks exactly when it fails. */
  lemma MessageListed(v: seq<bool>, k: nat)
    requires |v| == CHECKS && k < CHECKS
    ensures Message(k) in Messages(FailedChecks(v, CHECKS)) <==> v[k]
  {
    var ks := FailedChecks(v, CHECKS);
    var errs := Messages(ks);
    FailedChecksSpec(v, CHECKS);
    if v[k] {
      assert k in ks;
      var i :| 0 <= i < |ks| && ks[i] == k;
      assert errs[i] == Message(k);
    }
    if Message(k) in errs {
      var i :| 0 <= i < |errs| && errs[i] == Message(k);
      assert ks[i] in ks;
      if ks[i] != k {
        MessagesDistinct(ks[i], k);
      }
    }
  }

  /** The failing checks among the first `n`, in increasing order. */
  function FailedChecks(verdicts: seq<bool>, n: nat): seq<nat>
  {
    if n == 0 then []
    else FailedChecks(verdicts, n - 1) + (if n - 1 < |verdicts| && verdicts[n - 1] then [n - 1] else [])
  }

  /** The messages of a list of checks. */
  function Messages(checks: seq<nat>): (ms: seq<string>)
    ensures |ms| == |checks|
    ensures forall i :: 0 <= i < |checks| ==> ms[i] == Message(checks[i])
  {
    seq(|checks|, i requires 0 <= i < |checks| => Message(checks[i]))
  }

  lemma MessagesAppend(a: seq<nat>, b: seq<nat>)
    ensures Messages(a + b) == Messages(a) + Messages(b)
  {
  }

  /** The failing checks are listed once each, in increasing order. */
  lemma {:induction false} FailedChecksSpec(verdicts: seq<bool>, n: nat)
    ensures forall k: nat :: k in FailedChecks(verdicts, n) <==> k < n && k < |verdicts| && verdicts[k]
    ensures |FailedChecks(verdicts, n)| <= n
    ensures forall i, j :: 0 <= i < j < |FailedChecks(verdicts, n)| ==>
              FailedChecks(verdicts, n)[i] < FailedChecks(verdicts, n)[j]
  {
    if n > 0 {
      var front := FailedChecks(verdicts, n - 1);
      FailedChecksSpec(verdicts, n - 1);
      var last := if n - 1 < |verdicts| && verdicts[n - 1] then [n - 1] else [];
      var ks := front + last;
      assert FailedChecks(verdicts, n) == ks;
      forall k: nat ensures k in ks <==> k < n && k < |verdicts| && verdicts[k] {
        assert k in ks <==> k in front || k in last;
      }
      forall i, j | 0 <= i < j < |ks| ensures ks[i] < ks[j] {
        assert ks[i] == front[i];
        if j < |front| {
          assert ks[j] == front[j];
        } else {
          assert front[i] in front;
        }
      }
    }
  }

  /** The reports of the first `n` checks are the messages of those that fail, in order. */
  lemma {:induction false} ReportsFollowChecks(verdicts: seq<bool>, n: nat)
    ensures Reports(verdicts, n) == Messages(FailedChecks(verdicts, n))
  {
    if n > 0 {
      ReportsFollowChecks(verdicts, n - 1);
      var last := if n - 1 < |verdicts| && verdicts[n - 1] then [n - 1] else [];
      MessagesAppend(FailedChecks(verdicts, n - 1), last);
      assert Messages(last) == Report(verdicts, n - 1);
    }
  }

  /** The messages are those of the failing checks, in the order of the checks. */
  lemma ErrorsFollowChecks(config: Json)
    requires !IsNullish(config)
    ensures ConfigurationErrors(config).value == Messages(FailedChecks(Verdicts(config), CHECKS))
  {
    ReportsFollowChecks(Verdicts(config), CHECKS);
  }

  /** Messages appear in the order of their checks: id, title, version, type, visibility. */
  lemma ReportsInCheckOrder(config: Json, i: nat, j: nat, k: nat, l: nat)
    requires !IsNullish(config)
    requires i < j < |ConfigurationErrors(config).value|
    requires k < CHECKS && l < CHECKS
    requires ConfigurationErrors(config).value[i] == Message(k)
    requires ConfigurationErrors(config).value[j] == Message(l)
    ensures k < l
  {
    ErrorsFollowChecks(config);
    FailedChecksSpec(Verdicts(config), CHECKS);
    var ks := FailedChecks(Verdicts(config), CHECKS);
    assert ks[i] in ks && ks[j] in ks;
    if ks[i] != k {
      MessagesDistinct(ks[i], k);
    }
    if ks[j] != l {
      MessagesDistinct(ks[j], l);
    }
  }

  /**
   * A string version passes exactly when it is three runs of digits joined
   * with dots; an absent version always fails.
   */
  lemma VersionCheck(config: Json)
    ensures Get(config, "version").Str? ==>
              (Fails(config, 2) <==>
               !exists a, b, c :: IsDigits(a) && IsDigits(b) && IsDigits(c) && Get(config, "version").s == Dotted(a, b, c))
    ensures Get(config, "version").Undef? ==> Fails(config, 2)
  {
    var version := Get(config, "version");
    if version.Str? {
      SemVerShape(version.s);
      if version.s == "" {
        assert !IsDigits(Split("", '.')[0]);
      }
    }
  }
}
