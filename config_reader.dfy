/**
  ConfigValidator.validate_config of the current revision (src/config_reader.py):
  a configuration file, read as a map from section name to the set of option
  names it holds, must contain every required section and, in each, every
  required option. The first absence in list order is reported.
  */
module ConfigReader {
  /** The ValueError raised, by the entry its message names. */
  datatype ConfigError = MissingSection(section: string) | MissingOption(option: string, section: string)

  datatype Validation = Valid | Invalid(error: ConfigError)

  /** Section name to the names of the options present in it. */
  type Config = map<string, set<string>>

  /** The required sections in order, each with its required options in order. */
  type Requirements = seq<(string, seq<string>)>

  /** necessary_options of this revision. */
  const NECESSARY_OPTIONS: Requirements := [
    ("general", ["disks", "disk_threshold", "cpu_threshold", "ram_threshold", "gpu_threshold",
                 "gpu_memory_threshold", "gpu_temp_threshold"]),
    ("time", ["check_frequency", "email_retry_delay", "alert_cooldown_time"]),
    ("email", ["smtp_server", "smtp_port", "smtp_username", "smtp_password", "recipient",
               "alert_subject_template", "alert_body_template"])
  ]

  /** Every listed option is present in a present section. */
  predicate OptionsPresent(config: Config, section: string, options: seq<string>)
    requires section in config
  {
    forall j :: 0 <= j < |options| ==> options[j] in config[section]
  }

  predicate SectionComplete(config: Config, section: string, options: seq<string>)
  {
    section in config && OptionsPresent(config, section, options)
  }

  /** The reference meaning of a valid configuration: nothing required is absent. */
  predicate Satisfies(config: Config, req: Requirements)
  {
    forall i :: 0 <= i < |req| ==> SectionComplete(config, req[i].0, req[i].1)
  }

  /** The inner loop: the first listed option the section lacks. */
  function FirstMissingOption(config: Config, section: string, options: seq<string>): Validation
    requires section in config
  {
    if options == [] then Valid
    else if options[0] !in config[section] then Invalid(MissingOption(options[0], section))
    else FirstMissingOption(config, section, options[1..])
  }

  /** Both loops: a missing section is reported before any of its options is
      looked at, and a section's options are all checked before the next
      section. */
  function FirstMissing(config: Config, req: Requirements): Validation
  {
    if req == [] then Valid
    else if req[0].0 !in config then Invalid(MissingSection(req[0].0))
    else
      var inner := FirstMissingOption(config, req[0].0, req[0].1);
      if inner.Invalid? then inner else FirstMissing(config, req[1..])
  }

  /** The nested for-loops with their early exit, over any requirement list;
      the configuration is only read. */
  method CheckRequired(config: Config, req: Requirements) returns (v: Validation)
    ensures v == FirstMissing(config, req)
    ensures v == Valid <==> Satisfies(config, req)
  {
    ValidIffSatisfies(config, req);
    for i := 0 to |req|
      invariant FirstMissing(config, req) == FirstMissing(config, req[i..])
    {
      var (section, options) := req[i];
      assert req[i..][1..] == req[i + 1..];
      if section !in config {
        return Invalid(MissingSection(section));
      }
      for j := 0 to |options|
        invariant FirstMissingOption(config, section, options) == FirstMissingOption(config, section, options[j..])
      {
        assert options[j..][1..] == options[j + 1..];
        if options[j] !in config[section] {
          return Invalid(MissingOption(options[j], section));
        }
      }
      assert options[|options|..] == [];
    }
    assert req[|req|..] == [];
    return Valid;
  }

  class ConfigValidator {
    const config: Config

    constructor (config: Config)
      ensures this.config == config
    {
      this.config := config;
    }

    /** validate_config: Valid, or the ValueError for the first absence. */
    method ValidateConfig() returns (v: Validation)
      ensures v == FirstMissing(config, NECESSARY_OPTIONS)
      ensures v == Valid <==> Satisfies(config, NECESSARY_OPTIONS)
    {
      v := CheckRequired(config, NECESSARY_OPTIONS);
    }
  }

  // ---- properties of the validator, for any requirement list ----

  lemma {:induction false} OptionsValidIffPresent(config: Config, section: string, options: seq<string>)
    requires section in config
    ensures FirstMissingOption(config, section, options) == Valid <==> OptionsPresent(config, section, options)
    decreases |options|
  {
    if options != [] {
      OptionsValidIffPresent(config, section, options[1..]);
      if options[0] in config[section] {
        assert forall j :: 1 <= j < |options| ==> options[j] == options[1..][j - 1];
      }
    }
  }

  /** The validator accepts exactly the configurations that satisfy every
      requirement. */
  lemma {:induction false} ValidIffSatisfies(config: Config, req: Requirements)
    ensures FirstMissing(config, req) == Valid <==> Satisfies(config, req)
    decreases |req|
  {
    if req != [] {
      ValidIffSatisfies(config, req[1..]);
      if req[0].0 in config {
        OptionsValidIffPresent(config, req[0].0, req[0].1);
        assert forall i :: 1 <= i < |req| ==> req[i] == req[1..][i - 1];
      }
    }
  }

  /** The option reported is the first listed one the section lacks. */
  lemma {:induction false} FirstAbsentOptionReported(config: Config, section: string, options: seq<string>, j: nat)
    requires section in config && j < |options|
    requires forall k :: 0 <= k < j ==> options[k] in config[section]
    requires options[j] !in config[section]
    ensures FirstMissingOption(config, section, options) == Invalid(MissingOption(options[j], section))
    decreases j
  {
    if j > 0 {
      assert options[0] in config[section];
      assert options[1..][j - 1] == options[j];
      FirstAbsentOptionReported(config, section, options[1..], j - 1);
    }
  }

  /** When the sections before `i` are complete and section `i` is absent,
      that section is reported. */
  lemma {:induction false} FirstAbsentSectionReported(config: Config, req: Requirements, i: nat)
    requires i < |req| && Satisfies(config, req[..i])
    requires req[i].0 !in config
    ensures FirstMissing(config, req) == Invalid(MissingSection(req[i].0))
    decreases i
  {
    if i > 0 {
      assert req[..i][0] == req[0];
      OptionsValidIffPresent(config, req[0].0, req[0].1);
      assert req[1..][..i - 1] == req[..i][1..];
      assert req[1..][i - 1] == req[i];
      FirstAbsentSectionReported(config, req[1..], i - 1);
    }
  }

  /** When the sections before `i` are complete and section `i` is present but
      lacks its `j`-th option while holding the earlier ones, that option is
      reported with its section. */
  lemma {:induction false} FirstAbsentOptionOfSectionReported(config: Config, req: Requirements, i: nat, j: nat)
    requires i < |req| && Satisfies(config, req[..i])
    requires req[i].0 in config && j < |req[i].1|
    requires forall k :: 0 <= k < j ==> req[i].1[k] in config[req[i].0]
    requires req[i].1[j] !in config[req[i].0]
    ensures FirstMissing(config, req) == Invalid(MissingOption(req[i].1[j], req[i].0))
    decreases i
  {
    if i > 0 {
      assert req[..i][0] == req[0];
      OptionsValidIffPresent(config, req[0].0, req[0].1);
      assert req[1..][..i - 1] == req[..i][1..];
      assert req[1..][i - 1] == req[i];
      FirstAbsentOptionOfSectionReported(config, req[1..], i - 1, j);
    } else {
      FirstAbsentOptionReported(config, req[0].0, req[0].1, j);
    }
  }

  /** Every reported error names something required that really is absent. */
  lemma {:induction false} ReportedErrorIsGenuine(config: Config, req: Requirements)
    ensures FirstMissing(config, req).Invalid? && FirstMissing(config, req).error.MissingSection? ==>
              var s := FirstMissing(config, req).error.section;
              s !in config && exists i :: 0 <= i < |req| && req[i].0 == s
    ensures FirstMissing(config, req).Invalid? && FirstMissing(config, req).error.MissingOption? ==>
              var e := FirstMissing(config, req).error;
              e.section in config && e.option !in config[e.section]
              && exists i :: 0 <= i < |req| && req[i].0 == e.section && e.option in req[i].1
    decreases |req|
  {
    if req != [] && req[0].0 in config {
      var inner := FirstMissingOption(config, req[0].0, req[0].1);
      if inner.Invalid? {
        OptionReportIsGenuine(config, req[0].0, req[0].1);
      } else {
        ReportedErrorIsGenuine(config, req[1..]);
        var r := FirstMissing(config, req[1..]);
        if r.Invalid? {
          var i :| 0 <= i < |req[1..]| && req[1..][i].0 == r.error.section
                   && (r.error.MissingOption? ==> r.error.option in req[1..][i].1);
          assert req[i + 1] == req[1..][i];
        }
      }
    }
  }

  lemma {:induction false} OptionReportIsGenuine(config: Config, section: string, options: seq<string>)
    requires section in config
    ensures FirstMissingOption(config, section, options).Invalid? ==>
              var e := FirstMissingOption(config, section, options).error;
              e.MissingOption? && e.section == section && e.option !in config[section] && e.option in options
    decreases |options|
  {
    if options != [] && options[0] in config[section] {
      OptionReportIsGenuine(config, section, options[1..]);
    }
  }

  /** Extra sections and extra options never make a valid configuration invalid. */
  lemma ExtraEntriesIgnored(config: Config, larger: Config, req: Requirements)
    requires forall s :: s in config ==> s in larger && config[s] <= larger[s]
    requires FirstMissing(config, req) == Valid
    ensures FirstMissing(larger, req) == Valid
  {
    ValidIffSatisfies(config, req);
    ValidIffSatisfies(larger, req);
    assert Satisfies(larger, req) by {
      forall i | 0 <= i < |req| ensures SectionComplete(larger, req[i].0, req[i].1) {
        assert SectionComplete(config, req[i].0, req[i].1);
      }
    }
  }

  // ---- this revision's requirement list ----

  /** The (section, option) pairs the monitors, the notifier and the polling
      loop fetch and then use as a number, string or template; both revisions
      fetch the same ones. A missing pair is fetched as None, and the effect
      depends on the use: most uses raise TypeError or AttributeError, a
      missing smtp_port means port 25, and a missing smtp_server makes every
      session end in a terminal SMTP error. */
  const OPTIONS_READ: set<(string, string)> := {
    ("general", "disks"), ("general", "disk_threshold"), ("general", "cpu_threshold"),
    ("general", "ram_threshold"), ("general", "gpu_threshold"), ("general", "gpu_memory_threshold"),
    ("general", "gpu_temp_threshold"),
    ("time", "check_frequency"), ("time", "email_retry_delay"), ("time", "alert_cooldown_time"),
    ("email", "smtp_server"), ("email", "smtp_port"), ("email", "smtp_username"), ("email", "smtp_password"),
    ("email", "recipient"), ("email", "alert_subject_template"), ("email", "alert_body_template")
  }

  /** Every listed pair is present, so none of them is fetched as None. */
  predicate HoldsAll(config: Config, fetched: set<(string, string)>)
  {
    forall p :: p in fetched ==> p.0 in config && p.1 in config[p.0]
  }

  /** A configuration this revision accepts holds every option the program
      later fetches, so none of them comes back as None. */
  lemma ValidConfigHoldsOptionsRead(config: Config)
    requires FirstMissing(config, NECESSARY_OPTIONS) == Valid
    ensures HoldsAll(config, OPTIONS_READ)
  {
    var req := NECESSARY_OPTIONS;
    ValidIffSatisfies(config, req);
    forall k, o | 0 <= k < 3 && o in req[k].1 ensures req[k].0 in config && o in config[req[k].0] {
      assert SectionComplete(config, req[k].0, req[k].1);
      var j :| 0 <= j < |req[k].1| && req[k].1[j] == o;
    }
    forall p | p in OPTIONS_READ ensures p.0 in config && p.1 in config[p.0] {
      assert (p.0 == req[0].0 && p.1 in req[0].1) || (p.0 == req[1].0 && p.1 in req[1].1)
             || (p.0 == req[2].0 && p.1 in req[2].1);
    }
  }

  /** The configuration holding exactly the required options. */
  const MINIMAL_CONFIG: Config := map[
    "general" := {"disks", "disk_threshold", "cpu_threshold", "ram_threshold", "gpu_threshold",
                  "gpu_memory_threshold", "gpu_temp_threshold"},
    "time" := {"check_frequency", "email_retry_delay", "alert_cooldown_time"},
    "email" := {"smtp_server", "smtp_port", "smtp_username", "smtp_password", "recipient",
                "alert_subject_template", "alert_body_template"}
  ]

  /** The section order general, time, email decides which absence is
      reported, and the template options are required. */
  lemma ValidationExamples()
    ensures FirstMissing(MINIMAL_CONFIG, NECESSARY_OPTIONS) == Valid
    ensures FirstMissing(map[], NECESSARY_OPTIONS) == Invalid(MissingSection("general"))
    ensures FirstMissing(map["general" := MINIMAL_CONFIG["general"]], NECESSARY_OPTIONS) == Invalid(MissingSection("time"))
    ensures FirstMissing(MINIMAL_CONFIG["time" := {"check_frequency"}], NECESSARY_OPTIONS)
              == Invalid(MissingOption("email_retry_delay", "time"))
    ensures FirstMissing(MINIMAL_CONFIG["email" := MINIMAL_CONFIG["email"] - {"alert_body_template"}], NECESSARY_OPTIONS)
              == Invalid(MissingOption("alert_body_template", "email"))
  {
    var req := NECESSARY_OPTIONS;
    var onlyGeneral: Config := map["general" := MINIMAL_CONFIG["general"]];
    assert Satisfies(onlyGeneral, req[..1]) by {
      assert SectionComplete(onlyGeneral, req[0].0, req[0].1);
    }
    FirstAbsentSectionReported(onlyGeneral, req, 1);
    var shortTime := MINIMAL_CONFIG["time" := {"check_frequency"}];
    assert Satisfies(shortTime, req[..1]) by {
      assert SectionComplete(shortTime, req[0].0, req[0].1);
    }
    FirstAbsentOptionOfSectionReported(shortTime, req, 1, 1);
    var noBody := MINIMAL_CONFIG["email" := MINIMAL_CONFIG["email"] - {"alert_body_template"}];
    assert Satisfies(noBody, req[..2]) by {
      assert SectionComplete(noBody, req[0].0, req[0].1);
      assert SectionComplete(noBody, req[1].0, req[1].1);
    }
    FirstAbsentOptionOfSectionReported(noBody, req, 2, 6);
  }
}
