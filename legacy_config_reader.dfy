/**
  ConfigValidator.validate_config of the older revision (config_reader.py at
  the top of the repository): the same nested check over a shorter list, with
  the older name of the retry delay and no cooldown or template options.
  */
module LegacyConfigReader {
  import CR = ConfigReader

  /** necessary_options of this revision. */
  const NECESSARY_OPTIONS: CR.Requirements := [
    ("general", ["disks", "disk_threshold", "cpu_threshold", "ram_threshold", "gpu_threshold",
                 "gpu_memory_threshold", "gpu_temp_threshold"]),
    ("time", ["check_frequency", "wait_time_to_resend_email"]),
    ("email", ["smtp_server", "smtp_port", "smtp_username", "smtp_password", "recipient"])
  ]

  class ConfigValidator {
    const config: CR.Config

    constructor (config: CR.Config)
      ensures this.config == config
    {
      this.config := config;
    }

    /** validate_config: Valid, or the ValueError for the first absence. */
    method ValidateConfig() returns (v: CR.Validation)
      ensures v == CR.FirstMissing(config, NECESSARY_OPTIONS)
      ensures v == CR.Valid <==> CR.Satisfies(config, NECESSARY_OPTIONS)
    {
      v := CR.CheckRequired(config, NECESSARY_OPTIONS);
    }
  }

  /** The configuration holding exactly this revision's required options. */
  const MINIMAL_CONFIG: CR.Config := map[
    "general" := {"disks", "disk_threshold", "cpu_threshold", "ram_threshold", "gpu_threshold",
                  "gpu_memory_threshold", "gpu_temp_threshold"},
    "time" := {"check_frequency", "wait_time_to_resend_email"},
    "email" := {"smtp_server", "smtp_port", "smtp_username", "smtp_password", "recipient"}
  ]

  /** The file holding exactly this revision's options is accepted. */
  lemma MinimalConfigAccepted()
    ensures CR.FirstMissing(MINIMAL_CONFIG, NECESSARY_OPTIONS) == CR.Valid
  {
    CR.ValidIffSatisfies(MINIMAL_CONFIG, NECESSARY_OPTIONS);
    var req := NECESSARY_OPTIONS;
    assert CR.SectionComplete(MINIMAL_CONFIG, req[0].0, req[0].1);
    assert CR.SectionComplete(MINIMAL_CONFIG, req[1].0, req[1].1);
    assert CR.SectionComplete(MINIMAL_CONFIG, req[2].0, req[2].1);
  }

  /** A file written for this revision fails the current one at the renamed
      retry delay. */
  lemma CurrentRejectsOlderFile()
    ensures CR.FirstMissing(MINIMAL_CONFIG, CR.NECESSARY_OPTIONS) == CR.Invalid(CR.MissingOption("email_retry_delay", "time"))
  {
    var req := CR.NECESSARY_OPTIONS;
    assert CR.Satisfies(MINIMAL_CONFIG, req[..1]) by {
      assert CR.SectionComplete(MINIMAL_CONFIG, req[0].0, req[0].1);
    }
    CR.FirstAbsentOptionOfSectionReported(MINIMAL_CONFIG, req, 1, 1);
  }

  /** A file written for the current revision fails this one at the old name
      of the retry delay. */
  lemma OlderRejectsCurrentFile()
    ensures CR.FirstMissing(CR.MINIMAL_CONFIG, NECESSARY_OPTIONS) == CR.Invalid(CR.MissingOption("wait_time_to_resend_email", "time"))
  {
    var legacy := NECESSARY_OPTIONS;
    assert CR.Satisfies(CR.MINIMAL_CONFIG, legacy[..1]) by {
      assert CR.SectionComplete(CR.MINIMAL_CONFIG, legacy[0].0, legacy[0].1);
    }
    CR.FirstAbsentOptionOfSectionReported(CR.MINIMAL_CONFIG, legacy, 1, 1);
  }

  /** As written, this revision accepts a configuration that lacks options its
      own notifier fetches: alert_format fetches alert_cooldown_time on every
      call and send_alert fetches email_retry_delay at each retry. A missing
      option is fetched as None, and its first use raises TypeError. */
  lemma AcceptedConfigLacksNotifierOptions()
    ensures CR.FirstMissing(MINIMAL_CONFIG, NECESSARY_OPTIONS) == CR.Valid
    ensures ("time", "alert_cooldown_time") in CR.OPTIONS_READ && "alert_cooldown_time" !in MINIMAL_CONFIG["time"]
    ensures ("time", "email_retry_delay") in CR.OPTIONS_READ && "email_retry_delay" !in MINIMAL_CONFIG["time"]
    ensures !CR.HoldsAll(MINIMAL_CONFIG, CR.OPTIONS_READ)
  {
    MinimalConfigAccepted();
    assert ("time", "alert_cooldown_time") in CR.OPTIONS_READ;
  }

  /** The older list extended by the four options the notifier reads. */
  const CORRECTED_NECESSARY_OPTIONS: CR.Requirements := [
    ("general", ["disks", "disk_threshold", "cpu_threshold", "ram_threshold", "gpu_threshold",
                 "gpu_memory_threshold", "gpu_temp_threshold"]),
    ("time", ["check_frequency", "wait_time_to_resend_email", "email_retry_delay", "alert_cooldown_time"]),
    ("email", ["smtp_server", "smtp_port", "smtp_username", "smtp_password", "recipient",
               "alert_subject_template", "alert_body_template"])
  ]

  /** With the corrected list, an accepted configuration holds every option
      the program reads. */
  lemma CorrectedValidConfigHoldsOptionsRead(config: CR.Config)
    requires CR.FirstMissing(config, CORRECTED_NECESSARY_OPTIONS) == CR.Valid
    ensures CR.HoldsAll(config, CR.OPTIONS_READ)
  {
    var req := CORRECTED_NECESSARY_OPTIONS;
    CR.ValidIffSatisfies(config, req);
    forall k, o | 0 <= k < 3 && o in req[k].1 ensures req[k].0 in config && o in config[req[k].0] {
      assert CR.SectionComplete(config, req[k].0, req[k].1);
      var j :| 0 <= j < |req[k].1| && req[k].1[j] == o;
    }
    forall p | p in CR.OPTIONS_READ ensures p.0 in config && p.1 in config[p.0] {
      assert (p.0 == req[0].0 && p.1 in req[0].1) || (p.0 == req[1].0 && p.1 in req[1].1)
             || (p.0 == req[2].0 && p.1 in req[2].1);
    }
  }

  /** A file that carries both names of the retry delay passes both revisions
      once it passes the current one. */
  lemma CurrentPlusOldDelayPassesBoth(config: CR.Config)
    requires CR.FirstMissing(config, CR.NECESSARY_OPTIONS) == CR.Valid
    requires "time" in config && "wait_time_to_resend_email" in config["time"]
    ensures CR.FirstMissing(config, NECESSARY_OPTIONS) == CR.Valid
  {
    var req := CR.NECESSARY_OPTIONS;
    var legacy := NECESSARY_OPTIONS;
    CR.ValidIffSatisfies(config, req);
    CR.ValidIffSatisfies(config, legacy);
    assert CR.SectionComplete(config, req[0].0, req[0].1);
    assert CR.SectionComplete(config, req[1].0, req[1].1);
    assert CR.SectionComplete(config, req[2].0, req[2].1);
    assert forall j :: 0 <= j < |legacy[2].1| ==> legacy[2].1[j] == req[2].1[j];
  }
}
