/**
 * The exporter's static metric catalogue: one descriptor per metric, all
 * gauges, built once from the namespace, a name suffix, a help text and the
 * variable label names; and the descriptors Describe announces.
 */
module Catalogue {
  import opened Metrics

  /** Only used for metrics over a past time frame: the closed sessions. */
  const SessionsClosedMinutes := 5

  const Namespace := "wallix_bastion"

  function NewDesc(suffix: string, help: string, labels: seq<string>): Desc
  {
    Desc(BuildFQName(Namespace, "", suffix), help, labels)
  }

  const Up := NewDesc("up", "Was able to request and authenticate to Wallix Bastion API successfully.", [])
  const Users := NewDesc("users", "Current number of users.", [])
  const Groups := NewDesc("groups", "Current number of groups.", [])
  const Devices := NewDesc("devices", "Current number of devices.", [])
  // the help text is formatted with SessionsClosedMinutes
  const Sessions := NewDesc("sessions", "Number of sessions for the last 5m.", ["status"])
  const Targets := NewDesc("targets", "Current number of targets.", ["type"])
  const EncryptionStatus := NewDesc("encryption_status",
    "Encryption status (need_setup=0, ready=1, need_passphrase=2).", ["status", "security_level"])
  const EncryptionSecurityLevel := NewDesc("encryption_security_level",
    "Encryption security level (need_setup=0, passphrase_defined=1, passphrase_not_used=2, [hidden]=-1).",
    ["security_level", "status"])
  const LicenseIsExpired := NewDesc("license_is_expired", "Is the Wallix is expired (0=false, 1=true).", [])
  const LicensePrimaryPct := NewDesc("license_primary_ratio", "License usage percentage of primary.", [])
  const LicenseSecondaryPct := NewDesc("license_secondary_ratio", "License usage percentage of secondary.", [])
  const LicenseNamedUserPct := NewDesc("license_named_user_ratio", "License usage percentage of named user.", [])
  const LicenseResourcePct := NewDesc("license_resource_ratio", "License usage percentage of resource.", [])
  const LicenseWaapmPct := NewDesc("license_waapm_ratio", "License usage percentage of waapm.", [])
  // As written, the pm target ratio is published under the sm target name and vice versa.
  const LicensePmTargetPct := NewDesc("license_sm_target_ratio", "License usage percentage of pm target.", [])
  const LicenseSmTargetPct := NewDesc("license_pm_target_ratio", "License usage percentage of sm target.", [])

  /** The license descriptors: samples are sent for them, but Describe does not announce them. */
  const LicenseDescs := [LicenseIsExpired, LicensePrimaryPct, LicenseSecondaryPct, LicenseNamedUserPct,
                         LicenseResourcePct, LicenseWaapmPct, LicensePmTargetPct, LicenseSmTargetPct]

  /** What Describe sends, in order. */
  const Described := [Up, Users, Groups, Devices, Sessions, Targets, EncryptionStatus, EncryptionSecurityLevel]

  /** Every metric name is the namespace, an underscore and the suffix. */
  lemma NewDescName(suffix: string, help: string, labels: seq<string>)
    requires suffix != ""
    ensures NewDesc(suffix, help, labels).name == "wallix_bastion_" + suffix
    ensures NewDesc(suffix, help, labels).labels == labels
  {
  }

  /** The names of the up and count metrics. */
  lemma CountNames()
    ensures Up.name == "wallix_bastion_" + "up"
    ensures Users.name == "wallix_bastion_" + "users"
    ensures Groups.name == "wallix_bastion_" + "groups"
    ensures Devices.name == "wallix_bastion_" + "devices"
  {
    NewDescName("up", Up.help, []);
    NewDescName("users", Users.help, []);
    NewDescName("groups", Groups.help, []);
    NewDescName("devices", Devices.help, []);
  }

  /** The names of the labelled metrics. */
  lemma LabelledNames()
    ensures Sessions.name == "wallix_bastion_" + "sessions"
    ensures Targets.name == "wallix_bastion_" + "targets"
    ensures EncryptionStatus.name == "wallix_bastion_" + "encryption_status"
    ensures EncryptionSecurityLevel.name == "wallix_bastion_" + "encryption_security_level"
  {
    NewDescName("sessions", Sessions.help, Sessions.labels);
    NewDescName("targets", Targets.help, Targets.labels);
    NewDescName("encryption_status", EncryptionStatus.help, EncryptionStatus.labels);
    NewDescName("encryption_security_level", EncryptionSecurityLevel.help, EncryptionSecurityLevel.labels);
  }

  /** The names of the license flag and first ratios. */
  lemma LicenseFlagNames()
    ensures LicenseIsExpired.name == "wallix_bastion_" + "license_is_expired"
    ensures LicensePrimaryPct.name == "wallix_bastion_" + "license_primary_ratio"
    ensures LicenseSecondaryPct.name == "wallix_bastion_" + "license_secondary_ratio"
    ensures LicenseNamedUserPct.name == "wallix_bastion_" + "license_named_user_ratio"
  {
    NewDescName("license_is_expired", LicenseIsExpired.help, []);
    NewDescName("license_primary_ratio", LicensePrimaryPct.help, []);
    NewDescName("license_secondary_ratio", LicenseSecondaryPct.help, []);
    NewDescName("license_named_user_ratio", LicenseNamedUserPct.help, []);
  }

  /** The names of the remaining license ratios; the pm and sm target names are swapped. */
  lemma RatioNames()
    ensures LicenseResourcePct.name == "wallix_bastion_" + "license_resource_ratio"
    ensures LicenseWaapmPct.name == "wallix_bastion_" + "license_waapm_ratio"
    ensures LicensePmTargetPct.name == "wallix_bastion_" + "license_sm_target_ratio"
    ensures LicenseSmTargetPct.name == "wallix_bastion_" + "license_pm_target_ratio"
  {
    NewDescName("license_resource_ratio", LicenseResourcePct.help, []);
    NewDescName("license_waapm_ratio", LicenseWaapmPct.help, []);
    NewDescName("license_sm_target_ratio", LicensePmTargetPct.help, []);
    NewDescName("license_pm_target_ratio", LicenseSmTargetPct.help, []);
  }

  /** Only sessions, targets and the two encryption metrics have variable labels. */
  lemma DescriptorLabels()
    ensures Sessions.labels == ["status"]
    ensures Targets.labels == ["type"]
    ensures EncryptionStatus.labels == ["status", "security_level"]
    ensures EncryptionSecurityLevel.labels == ["security_level", "status"]
    ensures Up.labels == Users.labels == Groups.labels == Devices.labels == []
    ensures forall d :: d in LicenseDescs ==> d.labels == []
  {
  }

  /** The names Describe announces are pairwise distinct. */
  lemma DescribedNamesDistinct()
    ensures |Described| == 8
    ensures forall i, j :: 0 <= i < j < |Described| ==> Described[i].name != Described[j].name
  {
    CountNames();
    LabelledNames();
    var lengths := [17, 20, 21, 22, 23, 22, 32, 40];
    assert forall i :: 0 <= i < 8 ==> |Described[i].name| == lengths[i];
    assert Devices.name[15] == 'd' && Targets.name[15] == 't';
  }

  /** After the shared "wallix_bastion_" prefix, every license name goes on with 'l'. */
  lemma LicenseNamesAfterPrefix()
    ensures forall d :: d in LicenseDescs ==> |d.name| > 15 && d.name[15] == 'l'
  {
    LicenseFlagNames();
    RatioNames();
  }

  /** After the shared prefix, no announced name goes on with 'l'. */
  lemma DescribedNamesAfterPrefix()
    ensures forall d :: d in Described ==> |d.name| > 15 && d.name[15] != 'l'
  {
    CountNames();
    LabelledNames();
  }

  /** No license descriptor is announced: their names differ right after the shared prefix. */
  lemma LicenseNotDescribed()
    ensures forall d :: d in LicenseDescs ==> d !in Described
  {
    LicenseNamesAfterPrefix();
    DescribedNamesAfterPrefix();
  }

  /** Describe announces eight descriptors, with distinct names, and no license descriptor. */
  lemma DescribedCatalogue()
    ensures |Described| == 8
    ensures forall i, j :: 0 <= i < j < |Described| ==> Described[i].name != Described[j].name
    ensures forall d :: d in LicenseDescs ==> d !in Described
  {
    DescribedNamesDistinct();
    LicenseNotDescribed();
  }
}
