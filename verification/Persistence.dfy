/**
 The two registry records and the memory behind them. Config (the calibration) and Settings (with
 the protected chaperone) are separate values that hold one logical transaction: a universe rebase
 moves both, so a load must never arm a standing center from one rebase epoch over a calibration
 from another.

 An epoch names the raw-space universe a transform or a standing center was expressed in. Every
 registry write may fail (`faults`), and the registry as it stood after each write that landed is
 kept in `images`: a crash leaves exactly one of those behind. Revisions are unbounded numbers.
 */
module Persistence {
  import opened Common

  // ---------------------------------------------------------------------------
  // The records
  // ---------------------------------------------------------------------------

  datatype Chaperone = Disarmed | Armed(center: nat, ownerComplete: bool, ownerSystem: nat)

  /**
   An invalid profile is stored as an empty value, which reads as no record. Releases before the
   split embedded the chaperone in Config and wrote no revision.
   */
  datatype ConfigCell =
    | NoConfig
    | CorruptConfig
    | Profile(revision: Option<nat>, epoch: nat, referenceSystem: nat, embedded: Chaperone)

  datatype SettingsCell =
    | NoSettings
    | CorruptSettings
    | Settings(revision: Option<nat>, chaperone: Chaperone)

  datatype Image = Image(config: ConfigCell, settings: SettingsCell)

  datatype RecordLoadState = Missing | Loaded | Unreadable

  // ---------------------------------------------------------------------------
  // The gates
  // ---------------------------------------------------------------------------

  predicate CanUseRecoveredSettings(settings: RecordLoadState, config: RecordLoadState) {
    settings.Loaded? || !config.Unreadable?
  }

  predicate CanMaterializeSettings(config: RecordLoadState) {
    !config.Unreadable?
  }

  predicate CanPersistSettings(config: RecordLoadState, settings: RecordLoadState) {
    !config.Unreadable? || settings.Loaded?
  }

  predicate ProfileWriteAllowed(config: RecordLoadState, settings: RecordLoadState, migrationPending: bool) {
    !config.Unreadable? && !(migrationPending && settings.Unreadable?)
  }

  predicate SettingsWriteAllowed(config: RecordLoadState, settings: RecordLoadState) {
    CanPersistSettings(config, settings) && !settings.Unreadable?
  }

  // ---------------------------------------------------------------------------
  // The load decision
  // ---------------------------------------------------------------------------

  datatype LoadGate = NoGate | ProfileUnreadable | SettingsUnreadable | IncompleteOwner | ForeignTrackingSystem

  datatype LoadFacts = LoadFacts(
    profile: RecordLoadState, settings: RecordLoadState,
    profileRevision: Option<nat>, settingsRevision: Option<nat>,
    chaperoneArmed: bool, ownerComplete: bool, ownerMatchesReference: bool, profileValid: bool)

  datatype LoadPlan = LoadPlan(
    revision: nat, revisionMismatch: bool, reportRevisionMismatch: bool, disarmChaperone: bool,
    gate: LoadGate, settingsRewriteNeeded: bool, migrationPending: bool,
    migrationPendingIfRewriteFails: bool, profileRewriteNeeded: bool)

  /** Config and Settings agree: the same revision, or records from before revisions. */
  predicate RecordsAgree(profile: RecordLoadState, settings: RecordLoadState,
                         profileRevision: Option<nat>, settingsRevision: Option<nat>)
  {
    match profile
    case Missing => !settings.Unreadable?
    case Unreadable => settings.Loaded?
    case Loaded =>
      match profileRevision
      case Some(c) => settings.Loaded? && settingsRevision == Some(c)
      case None => !settings.Unreadable? && (settings.Loaded? && settingsRevision.Some? ==> settingsRevision.value <= 1)
  }

  /** When a chaperone that was armed after both parses stays armed. */
  predicate StaysArmed(facts: LoadFacts) {
    && RecordsAgree(facts.profile, facts.settings, facts.profileRevision, facts.settingsRevision)
    && facts.ownerComplete
    && (facts.profileValid ==> facts.ownerMatchesReference)
  }

  /** The revisions contradict each other, whatever the chaperone says. */
  predicate RevisionsClash(facts: LoadFacts) {
    && facts.profile.Loaded?
    && (if facts.profileRevision.Some? then !facts.settings.Loaded? || facts.settingsRevision != facts.profileRevision
        else facts.settings.Loaded? && facts.settingsRevision.Some? && facts.settingsRevision.value > 1)
  }

  /** A Settings record that carries a revision no Config contradicts need not be written again. */
  predicate SettingsUpToDate(facts: LoadFacts) {
    && facts.settings.Loaded? && facts.settingsRevision.Some? && !RevisionsClash(facts)
  }

  /** The finished decision, each field on its own. */
  function Decision(facts: LoadFacts): LoadPlan {
    var legacy := facts.profile.Loaded? && facts.profileRevision.None?;
    var armed := facts.chaperoneArmed && !RevisionsClash(facts);
    var canRewrite := !facts.settings.Unreadable? && !facts.profile.Unreadable?;
    var foreign := facts.profileValid && !facts.ownerMatchesReference;
    LoadPlan(
      revision := if facts.profile.Loaded? && !legacy then facts.profileRevision.value
                  else if facts.settingsRevision.Some? then facts.settingsRevision.value else 1,
      revisionMismatch := RevisionsClash(facts),
      reportRevisionMismatch := RevisionsClash(facts) && facts.chaperoneArmed,
      disarmChaperone := facts.chaperoneArmed && !StaysArmed(facts),
      gate := if facts.profile.Unreadable? && !facts.settings.Loaded? then ProfileUnreadable
              else if !armed then NoGate
              else if facts.settings.Unreadable? then SettingsUnreadable
              else if !facts.ownerComplete then IncompleteOwner
              else if foreign then ForeignTrackingSystem else NoGate,
      settingsRewriteNeeded := canRewrite && (!SettingsUpToDate(facts) || (armed && (!facts.ownerComplete || foreign))),
      migrationPending := legacy && !(facts.settings.Loaded? && facts.settingsRevision.Some?),
      migrationPendingIfRewriteFails := legacy,
      profileRewriteNeeded := legacy && RevisionsClash(facts) && facts.profileValid)
  }

  /** The plan is filled by ordered assignments, later ones overwriting earlier ones. */
  method PlanPersistenceLoad(facts: LoadFacts) returns (plan: LoadPlan)
    ensures plan == Decision(facts)
  {
    var profileLoaded := facts.profile.Loaded?;
    var settingsLoaded := facts.settings.Loaded?;
    var settingsMissing := facts.settings.Missing?;
    var settingsCanRewrite := (settingsMissing || settingsLoaded) && CanMaterializeSettings(facts.profile);
    var armed := facts.chaperoneArmed;
    plan := LoadPlan(1, false, false, false, NoGate, false, false,
                     profileLoaded && facts.profileRevision.None?, false);
    var settingsRevision := if facts.settingsRevision.Some? then facts.settingsRevision.value else 1;
    if profileLoaded && facts.profileRevision.Some? {
      plan := plan.(revision := facts.profileRevision.value);
      if !settingsLoaded || facts.settingsRevision != facts.profileRevision {
        plan := plan.(revisionMismatch := true, reportRevisionMismatch := armed);
        if armed {
          plan := plan.(disarmChaperone := true);
          armed := false;
        }
        plan := plan.(settingsRewriteNeeded := settingsCanRewrite);
      }
    } else if profileLoaded {
      plan := plan.(revision := settingsRevision);
      if !settingsLoaded || facts.settingsRevision.None? {
        plan := plan.(migrationPending := true, settingsRewriteNeeded := settingsCanRewrite);
      } else if facts.settingsRevision.value > 1 {
        plan := plan.(revisionMismatch := true, reportRevisionMismatch := armed);
        if armed {
          plan := plan.(disarmChaperone := true);
          armed := false;
        }
        plan := plan.(settingsRewriteNeeded := settingsCanRewrite, profileRewriteNeeded := facts.profileValid);
      }
    } else {
      plan := plan.(revision := settingsRevision);
      if settingsMissing || (settingsLoaded && facts.settingsRevision.None?) {
        plan := plan.(settingsRewriteNeeded := settingsCanRewrite);
      }
    }

    if !CanUseRecoveredSettings(facts.settings, facts.profile) {
      plan := plan.(gate := ProfileUnreadable);
      if armed {
        plan := plan.(disarmChaperone := true);
      }
    } else if facts.settings.Unreadable? && armed {
      plan := plan.(gate := SettingsUnreadable, disarmChaperone := true);
    } else if armed && !facts.ownerComplete {
      plan := plan.(gate := IncompleteOwner, disarmChaperone := true, settingsRewriteNeeded := settingsCanRewrite);
    } else if armed && facts.profileValid && !facts.ownerMatchesReference {
      plan := plan.(gate := ForeignTrackingSystem, disarmChaperone := true,
                    settingsRewriteNeeded := settingsCanRewrite);
    }
  }

  // ---------------------------------------------------------------------------
  // What a load makes of an image
  // ---------------------------------------------------------------------------

  /** The chaperone both parses leave: a readable Settings record is authoritative. */
  function Parsed(config: ConfigCell, settings: SettingsCell, settingsReadFails: bool): Chaperone {
    if settings.Settings? && !settingsReadFails then settings.chaperone
    else if config.Profile? then config.embedded
    else Disarmed
  }

  function FactsOf(config: ConfigCell, settings: SettingsCell, settingsReadFails: bool): LoadFacts {
    var chaperone := Parsed(config, settings, settingsReadFails);
    LoadFacts(
      match config { case NoConfig => Missing case CorruptConfig => Unreadable case Profile(_, _, _, _) => Loaded },
      if settingsReadFails || settings.CorruptSettings? then Unreadable
      else if settings.NoSettings? then Missing else Loaded,
      if config.Profile? then config.revision else None,
      if settings.Settings? && !settingsReadFails then settings.revision else None,
      chaperone.Armed?,
      chaperone.Armed? && chaperone.ownerComplete,
      chaperone.Armed? && config.Profile? && chaperone.ownerSystem == config.referenceSystem,
      config.Profile?)
  }

  /** A room whose owner is not on record is never armed by a load. */
  predicate Owned(chaperone: Chaperone) {
    chaperone.Armed? && chaperone.ownerComplete
  }

  predicate LoadArms(image: Image, settingsReadFails: bool) {
    && Parsed(image.config, image.settings, settingsReadFails).Armed?
    && StaysArmed(FactsOf(image.config, image.settings, settingsReadFails))
  }

  /** A load that reads Config and arms a chaperone takes both from one rebase epoch. */
  predicate Safe(image: Image) {
    forall fails: bool :: image.config.Profile? && LoadArms(image, fails) ==>
      Parsed(image.config, image.settings, fails).center == image.config.epoch
  }

  /** What every image must satisfy for the runs after it to stay safe. */
  predicate Recoverable(image: Image) {
    var config, settings := image.config, image.settings;
    && (settings.Settings? && settings.revision.Some? ==> settings.revision.value >= 1)
    && (config.Profile? ==>
         match config.revision
         case Some(c) =>
           && c >= 1 && config.embedded.Disarmed?
           && (settings.Settings? && settings.revision.Some? && Owned(settings.chaperone) ==>
                settings.revision.value < c
                || (settings.revision.value == c && settings.chaperone.center == config.epoch))
         case None =>
           && (Owned(config.embedded) ==> config.embedded.center == config.epoch)
           && (settings.Settings? && Owned(settings.chaperone)
               && (settings.revision.Some? ==> settings.revision.value <= 1) ==>
                settings.chaperone.center == config.epoch))
  }

  lemma RecoverableIsSafe(image: Image)
    requires Recoverable(image)
    ensures Safe(image)
  {
  }

  /**
   The revision starts over below a Settings record that could not be read this once, with no
   Config record to take it from.
   */
  predicate LineageLost(image: Image, settingsReadFails: bool) {
    && settingsReadFails && image.config.NoConfig? && image.settings.Settings?
    && Owned(image.settings.chaperone)
    && image.settings.revision.Some? && image.settings.revision.value > 1
  }

  function EpochOf(config: ConfigCell): nat {
    if config.Profile? then config.epoch else 0
  }

  function Positive(revision: nat): nat {
    if revision == 0 then 1 else revision
  }

  // ---------------------------------------------------------------------------
  // The session: registry, outcomes of the coming writes, and the context in memory
  // ---------------------------------------------------------------------------

  datatype Session = Session(
    config: ConfigCell, settings: SettingsCell,
    faults: seq<bool>,      // of the coming registry writes, true is a failure
    images: seq<Image>,     // the registry after each write that landed
    validProfile: bool, calibrationEpoch: nat, referenceSystem: nat, chaperone: Chaperone,
    profileLoadState: RecordLoadState, settingsLoadState: RecordLoadState,
    profileDirty: bool, settingsDirty: bool, revision: nat, coupled: bool, migrationPending: bool)
  {
    function Stored(): Image { Image(config, settings) }
  }

  datatype Saved = Saved(after: Session, profileSaved: bool, settingsSaved: bool)
  datatype Written = Written(after: Session, ok: bool)

  predicate Fails(faults: seq<bool>) {
    faults != [] && faults[0]
  }

  function Rest(faults: seq<bool>): seq<bool> {
    if faults == [] then [] else faults[1..]
  }

  /** One registry write: it lands whole or not at all. */
  function Put(s: Session, image: Image): Session {
    if Fails(s.faults) then s.(faults := Rest(s.faults))
    else s.(config := image.config, settings := image.settings, faults := Rest(s.faults), images := s.images + [image])
  }

  function SettingsWritten(s: Session): Written {
    if !SettingsWriteAllowed(s.profileLoadState, s.settingsLoadState) || (s.chaperone.Armed? && !s.chaperone.ownerComplete)
    then Written(s, false)
    else
      var put := Put(s, Image(s.config, Settings(Some(s.revision), s.chaperone)));
      if Fails(s.faults) then Written(put, false)
      else Written(put.(migrationPending := false, settingsLoadState := Loaded, settingsDirty := false), true)
  }

  function LiveConfig(s: Session, valid: bool): ConfigCell {
    if valid then Profile(Some(s.revision), s.calibrationEpoch, s.referenceSystem, Disarmed) else NoConfig
  }

  /** The migration moves the settings out of Config before Config is replaced. */
  function ConfigWritten(s: Session, valid: bool): Written {
    if !ProfileWriteAllowed(s.profileLoadState, s.settingsLoadState, s.migrationPending) then Written(s, false)
    else
      var migrated := if s.migrationPending then SettingsWritten(s) else Written(s, true);
      if !migrated.ok then migrated
      else
        var t := migrated.after;
        var put := Put(t, Image(LiveConfig(t, valid), t.settings));
        if Fails(t.faults) then Written(put, false)
        else Written(put.(profileDirty := false, profileLoadState := if valid then Loaded else Missing), true)
  }

  function SettingsSaved(s: Session): Saved {
    var profile := if s.profileDirty then ConfigWritten(s, s.validProfile) else Written(s, true);
    if !profile.ok && profile.after.coupled then Saved(profile.after, false, false)
    else
      var settings := SettingsWritten(profile.after);
      var t := settings.after;
      Saved(if t.profileDirty || t.settingsDirty then t else t.(coupled := false), profile.ok, settings.ok)
  }

  function PendingSaved(s: Session): Written {
    if s.settingsDirty then
      var saved := SettingsSaved(s);
      Written(saved.after, saved.profileSaved && saved.settingsSaved)
    else
      var profile := if s.profileDirty then ConfigWritten(s, s.validProfile) else Written(s, true);
      if profile.ok then Written(profile.after.(coupled := false), true) else profile
  }

  function Cleared(s: Session): Written {
    var saved := if s.settingsDirty then SettingsSaved(s) else Saved(s, true, true);
    if !(saved.profileSaved && saved.settingsSaved) then Written(saved.after, false)
    else
      var written := ConfigWritten(saved.after, false);
      if written.ok then Written(written.after.(validProfile := false, profileDirty := false), true) else written
  }

  // --- what changes the context ---

  function Advanced(s: Session): Session {
    s.(revision := s.revision + 1, coupled := true)
  }

  /** Settings stay marked when the save that should have cleared them failed. */
  function SettingsSavedOrMarked(s: Session): Session {
    var saved := SettingsSaved(s);
    if saved.profileSaved && saved.settingsSaved then saved.after else saved.after.(settingsDirty := true)
  }

  function Moved(chaperone: Chaperone, epoch: nat): Chaperone {
    if chaperone.Armed? then chaperone.(center := epoch) else Disarmed
  }

  datatype Event =
    | Rebase(epoch: nat)                         // calibration and standing center move together
    | CarryChaperone(epoch: nat)                 // with no calibration the center is carried alone
    | Snap                                       // an accepted jump correction in the same universe
    | Solve(universe: nat, system: nat)
    | Correct                                    // a continuous correction
    | ChangeSettings
    | Capture(universe: nat, system: nat)
    | Disarm
    | Flush
    | SaveEdit                                   // a profile edit is written at once
    | SaveSettings
    | Clear

  /** A fresh solve keeps only a chaperone whose baseline is the current one. */
  function Solved(s: Session, universe: nat, system: nat): Session {
    var kept := s.chaperone.Armed? && s.chaperone.ownerSystem == system && s.chaperone.center == universe;
    PendingSaved(Advanced(s.(
      validProfile := true, calibrationEpoch := universe, referenceSystem := system,
      chaperone := if kept then s.chaperone else Disarmed, profileDirty := true, settingsDirty := true))).after
  }

  /** The previous room is switched off on disk before the new one is put in its place. */
  function Captured(s: Session, universe: nat, system: nat): Session {
    if s.validProfile && system != s.referenceSystem then s
    else
      var off := if s.chaperone.Armed? then SettingsSaved(s.(settingsDirty := true)) else Saved(s, true, true);
      if !(off.profileSaved && off.settingsSaved) then off.after.(settingsDirty := true)
      else
        var t := off.after;
        SettingsSavedOrMarked(t.(chaperone := Armed(if t.validProfile then t.calibrationEpoch else universe, true, system)))
  }

  /** Everything in memory is replaced by what the registry gives. */
  function Adopted(s: Session, settingsReadFails: bool): Session {
    var facts := FactsOf(s.config, s.settings, settingsReadFails);
    var plan := Decision(facts);
    s.(validProfile := s.config.Profile?, calibrationEpoch := EpochOf(s.config),
    referenceSystem := if s.config.Profile? then s.config.referenceSystem else 0,
    chaperone := if plan.disarmChaperone then Disarmed else Parsed(s.config, s.settings, settingsReadFails),
    profileLoadState := facts.profile, settingsLoadState := facts.settings,
    profileDirty := plan.profileRewriteNeeded, settingsDirty := plan.settingsRewriteNeeded,
    revision := Positive(plan.revision) + (if plan.profileRewriteNeeded then 1 else 0),
    coupled := plan.profileRewriteNeeded, migrationPending := plan.migrationPending)
  }

  function Started(s: Session, settingsReadFails: bool): Session {
    var plan := Decision(FactsOf(s.config, s.settings, settingsReadFails));
    var adopted := Adopted(s, settingsReadFails);
    if !plan.settingsRewriteNeeded then adopted
    else
      var saved := SettingsSaved(adopted);
      if saved.profileSaved && saved.settingsSaved then saved.after
      else saved.after.(migrationPending := plan.migrationPendingIfRewriteFails)
  }

  /** What each event does; one that its caller would not raise does nothing. */
  function After(s: Session, event: Event): Session {
    match event
    case Rebase(epoch) =>
      if !s.validProfile then s
      else Advanced(s.(calibrationEpoch := epoch, chaperone := Moved(s.chaperone, epoch),
                    profileDirty := true, settingsDirty := true))
    case CarryChaperone(epoch) =>
      if s.validProfile || s.chaperone.Disarmed? then s
      else SettingsSavedOrMarked(Advanced(s.(chaperone := Moved(s.chaperone, epoch), settingsDirty := true)))
    case Snap => if !s.validProfile then s else Advanced(s.(profileDirty := true, settingsDirty := true))
    case Solve(universe, system) => Solved(s, universe, system)
    case Correct => if !s.validProfile then s else s.(profileDirty := true)
    case ChangeSettings => s.(settingsDirty := true)
    case Capture(universe, system) => Captured(s, universe, system)
    case Disarm => SettingsSaved(s.(chaperone := Disarmed, settingsDirty := true)).after
    case Flush => PendingSaved(s).after
    case SaveEdit => if !s.validProfile then s else ConfigWritten(s, true).after
    case SaveSettings => SettingsSaved(s).after
    case Clear => Cleared(s).after
  }

  function Run(s: Session, events: seq<Event>): Session
    decreases |events|
  {
    if events == [] then s else Run(After(s, events[0]), events[1..])
  }

  // ---------------------------------------------------------------------------
  // The invariant
  // ---------------------------------------------------------------------------

  /** Nothing can be written for the rest of the session. */
  predicate Frozen(s: Session) {
    s.settingsLoadState.Unreadable? && (s.migrationPending || s.profileLoadState.Unreadable?)
  }

  /** The migration latch is only set while Config still is the legacy record. */
  predicate LatchSound(s: Session) {
    s.migrationPending ==> s.config.Profile? && s.config.revision.None?
  }

  predicate ImagesRecoverable(images: seq<Image>, stored: Image) {
    && images != [] && images[|images| - 1] == stored
    && forall i :: 0 <= i < |images| ==> Recoverable(images[i])
  }

  /** Config is never ahead of memory, and one revision is one epoch. */
  predicate ConfigInStep(s: Session) {
    s.config.Profile? ==>
      match s.config.revision
      case Some(c) =>
        && c <= s.revision
        && (c == s.revision ==> s.config.epoch == s.calibrationEpoch)
        && (c < s.revision ==> s.coupled && s.profileDirty)
      case None => s.revision == 1 ==> s.config.epoch == s.calibrationEpoch
  }

  predicate SettingsInStep(s: Session) {
    s.settings.Settings? && Owned(s.settings.chaperone) && s.settings.revision.Some? ==>
      && s.settings.revision.value <= s.revision
      && (s.settings.revision.value == s.revision && s.validProfile ==>
           s.settings.chaperone.center == s.calibrationEpoch)
  }

  /** With nothing of it pending, a usable Settings record carries the live revision. */
  predicate SettingsSettled(s: Session) {
    !s.settingsDirty && !s.settingsLoadState.Unreadable? && !s.profileLoadState.Unreadable? ==>
      s.settings.Settings? && s.settings.revision == Some(s.revision)
  }

  predicate MemoryInStep(s: Session) {
    && s.revision >= 1
    && LatchSound(s)
    && (s.profileDirty ==> s.validProfile)
    && (s.config.NoConfig? <==> s.profileLoadState.Missing?)
    && (s.config.Profile? <==> s.profileLoadState.Loaded?)
    && (s.config.Profile? ==> s.validProfile)
    && (s.settingsLoadState.Loaded? ==> s.settings.Settings?)
    && (s.validProfile && s.chaperone.Armed? ==> s.chaperone.center == s.calibrationEpoch)
    && (!Frozen(s) ==> ConfigInStep(s) && SettingsInStep(s))
    && SettingsSettled(s)
  }

  predicate Inv(s: Session) {
    ImagesRecoverable(s.images, s.Stored()) && MemoryInStep(s)
  }

  /** `t` is `s` after some registry writes: what was on disk at any time stays on record. */
  predicate Extends(s: Session, t: Session) {
    s.images <= t.images
  }

  /** Saving moves what is in memory to disk and changes none of it. */
  predicate SameContext(s: Session, t: Session) {
    && t.validProfile == s.validProfile && t.calibrationEpoch == s.calibrationEpoch
    && t.referenceSystem == s.referenceSystem && t.chaperone == s.chaperone && t.revision == s.revision
  }

  /** A registry write keeps every image recoverable exactly when its own image is. */
  lemma PutKeepsImages(s: Session, image: Image)
    requires ImagesRecoverable(s.images, s.Stored()) && Recoverable(image)
    ensures ImagesRecoverable(Put(s, image).images, Put(s, image).Stored()) && Extends(s, Put(s, image))
  {
  }

  /** Settings may be written when Config is at this revision, or carries none. */
  predicate ConfigFirst(s: Session) {
    !Frozen(s) && s.config.Profile? && s.config.revision.Some? ==> s.config.revision.value == s.revision
  }

  lemma SettingsImageRecoverable(s: Session)
    requires Inv(s) && ConfigFirst(s) && !Frozen(s)
    ensures Recoverable(Image(s.config, Settings(Some(s.revision), s.chaperone)))
  {
  }

  lemma SettingsPutKeeps(s: Session)
    requires Inv(s) && ConfigFirst(s) && !Frozen(s) && SettingsWriteAllowed(s.profileLoadState, s.settingsLoadState)
    ensures var put := Put(s, Image(s.config, Settings(Some(s.revision), s.chaperone)));
            && Extends(s, put)
            && ImagesRecoverable(put.images, put.Stored())
            && MemoryInStep(if Fails(s.faults) then put
                            else put.(migrationPending := false, settingsLoadState := Loaded, settingsDirty := false))
  {
    hide Recoverable, ImagesRecoverable;
    assert Recoverable(Image(s.config, Settings(Some(s.revision), s.chaperone))) by {
      SettingsImageRecoverable(s);
    }
    PutKeepsImages(s, Image(s.config, Settings(Some(s.revision), s.chaperone)));
  }

  lemma SettingsWrittenKeeps(s: Session)
    requires Inv(s) && ConfigFirst(s)
    ensures var w := SettingsWritten(s);
            && Inv(w.after) && Extends(s, w.after) && ConfigFirst(w.after) && SameContext(s, w.after)
            && w.after.profileDirty == s.profileDirty
    ensures SettingsWritten(s).ok ==> !Frozen(s)
  {
    hide Recoverable, ImagesRecoverable, MemoryInStep;
    if SettingsWriteAllowed(s.profileLoadState, s.settingsLoadState) {
      SettingsPutKeeps(s);
    }
  }

  lemma ConfigImageRecoverable(s: Session, valid: bool)
    requires Inv(s) && (valid ==> s.validProfile) && !Frozen(s)
    ensures Recoverable(Image(LiveConfig(s, valid), s.settings))
  {
    assert Recoverable(s.images[|s.images| - 1]);
  }

  lemma ConfigWrittenKeeps(s: Session, valid: bool)
    requires Inv(s) && (valid ==> s.validProfile)
    ensures var w := ConfigWritten(s, valid);
            && Inv(w.after) && Extends(s, w.after) && SameContext(s, w.after)
            && (w.ok ==> w.after.config == LiveConfig(s, valid) && ConfigFirst(w.after) && !w.after.profileDirty && !Frozen(w.after))
            && (!w.ok ==> w.after.config == s.config && w.after.profileDirty == s.profileDirty)
            && w.after.coupled == s.coupled
  {
    hide Recoverable, ImagesRecoverable;
    if ProfileWriteAllowed(s.profileLoadState, s.settingsLoadState, s.migrationPending) {
      var t := s;
      if s.migrationPending {
        SettingsWrittenKeeps(s);
        t := SettingsWritten(s).after;
      }
      if !t.migrationPending {
        ConfigImageRecoverable(t, valid);
        ConfigPutKeeps(t, valid);
      }
    }
  }

  /** The registry write of Config itself, with nothing left to migrate. */
  lemma ConfigPutKeeps(t: Session, valid: bool)
    requires Inv(t) && !Frozen(t) && Recoverable(Image(LiveConfig(t, valid), t.settings))
    requires valid ==> t.validProfile
    requires !t.migrationPending && !t.profileLoadState.Unreadable?
    ensures var put := Put(t, Image(LiveConfig(t, valid), t.settings));
            Extends(t, put) &&
            if Fails(t.faults) then Inv(put)
            else var u := put.(profileDirty := false, profileLoadState := if valid then Loaded else Missing);
                 Inv(u) && ConfigFirst(u) && !Frozen(u)
  {
    hide Recoverable, ImagesRecoverable;
    PutKeepsImages(t, Image(LiveConfig(t, valid), t.settings));
  }

  lemma SettingsSavedKeeps(s: Session)
    requires Inv(s)
    ensures Inv(SettingsSaved(s).after) && Extends(s, SettingsSaved(s).after) && SameContext(s, SettingsSaved(s).after)
  {
    hide Recoverable, ImagesRecoverable, ConfigWritten, SettingsWritten;
    var profile := if s.profileDirty then ConfigWritten(s, s.validProfile) else Written(s, true);
    if s.profileDirty {
      ConfigWrittenKeeps(s, s.validProfile);
    }
    if profile.ok || !profile.after.coupled {
      SettingsWrittenKeeps(profile.after);
      if !profile.after.profileDirty {
        UncoupledWhenClean(SettingsWritten(profile.after).after);
      }
    }
  }

  lemma UncoupledWhenClean(s: Session)
    requires Inv(s) && !s.profileDirty
    ensures Inv(s.(coupled := false))
  {
    hide Recoverable, ImagesRecoverable;
  }

  lemma PendingSavedKeeps(s: Session)
    requires Inv(s)
    ensures Inv(PendingSaved(s).after) && Extends(s, PendingSaved(s).after) && SameContext(s, PendingSaved(s).after)
  {
    hide Recoverable, ImagesRecoverable, ConfigWritten, SettingsSaved;
    if s.settingsDirty {
      SettingsSavedKeeps(s);
    } else if s.profileDirty {
      ConfigWrittenKeeps(s, s.validProfile);
    }
  }

  lemma ClearedKeeps(s: Session)
    requires Inv(s)
    ensures Inv(Cleared(s).after) && Extends(s, Cleared(s).after)
  {
    hide Recoverable, ImagesRecoverable, ConfigWritten, SettingsSaved;
    if s.settingsDirty {
      SettingsSavedKeeps(s);
    }
    var saved := if s.settingsDirty then SettingsSaved(s) else Saved(s, true, true);
    ConfigWrittenKeeps(saved.after, false);
  }

  lemma SettingsSavedOrMarkedKeeps(s: Session)
    requires Inv(s)
    ensures Inv(SettingsSavedOrMarked(s)) && Extends(s, SettingsSavedOrMarked(s))
  {
    hide Recoverable, ImagesRecoverable, SettingsSaved;
    SettingsSavedKeeps(s);
  }

  lemma SolvedKeeps(s: Session, universe: nat, system: nat)
    requires Inv(s)
    ensures Inv(Solved(s, universe, system)) && Extends(s, Solved(s, universe, system))
  {
    hide Recoverable, ImagesRecoverable, PendingSaved;
    var kept := s.chaperone.Armed? && s.chaperone.ownerSystem == system && s.chaperone.center == universe;
    PendingSavedKeeps(Advanced(s.(
                      validProfile := true, calibrationEpoch := universe, referenceSystem := system,
                      chaperone := if kept then s.chaperone else Disarmed, profileDirty := true, settingsDirty := true)));
  }

  lemma CapturedKeeps(s: Session, universe: nat, system: nat)
    requires Inv(s)
    ensures Inv(Captured(s, universe, system)) && Extends(s, Captured(s, universe, system))
  {
    hide Recoverable, ImagesRecoverable, SettingsSaved;
    var off := s;
    if s.chaperone.Armed? {
      SettingsSavedKeeps(s.(settingsDirty := true));
      off := SettingsSaved(s.(settingsDirty := true)).after;
    }
    SettingsSavedOrMarkedKeeps(off.(
                               chaperone := Armed(if s.validProfile then s.calibrationEpoch else universe, true, system)));
  }

  // ---------------------------------------------------------------------------
  // Starting
  // ---------------------------------------------------------------------------

  /** Config is rebuilt under a new revision and the Settings write after it fails. */
  predicate HalfRepair(s: Session, settingsReadFails: bool) {
    && s.config.Profile? && s.config.revision.None?
    && s.settings.Settings? && !settingsReadFails
    && s.settings.revision.Some? && s.settings.revision.value > 1
    && !Fails(s.faults) && Fails(Rest(s.faults))
  }

  lemma AdoptedIsInStep(s: Session, settingsReadFails: bool)
    requires ImagesRecoverable(s.images, s.Stored())
    ensures MemoryInStep(Adopted(s, settingsReadFails)) <==> !LineageLost(s.Stored(), settingsReadFails)
    ensures var t := Adopted(s, settingsReadFails);
            t.validProfile && t.chaperone.Armed? ==> t.chaperone.center == t.calibrationEpoch
  {
    var image := s.images[|s.images| - 1];
    assert Recoverable(image);
    hide ImagesRecoverable;
  }

  /** Of the loads, exactly two leave memory out of step with what is stored. */
  lemma StartedKeeps(s: Session, settingsReadFails: bool)
    requires ImagesRecoverable(s.images, s.Stored())
    ensures var t := Started(s, settingsReadFails);
            && ImagesRecoverable(t.images, t.Stored()) && Extends(s, t)
            && (t.validProfile && t.chaperone.Armed? ==> t.chaperone.center == t.calibrationEpoch)
            && (MemoryInStep(t) <==> !LineageLost(s.Stored(), settingsReadFails) && !HalfRepair(s, settingsReadFails))
  {
    hide Recoverable, ImagesRecoverable;
    AdoptedIsInStep(s, settingsReadFails);
    if Decision(FactsOf(s.config, s.settings, settingsReadFails)).settingsRewriteNeeded {
      SettingsSavedKeeps(Adopted(s, settingsReadFails));
    }
  }

  lemma AfterKeeps(s: Session, event: Event)
    requires Inv(s)
    ensures Inv(After(s, event)) && Extends(s, After(s, event))
  {
    hide Recoverable, ImagesRecoverable, ConfigWritten, SettingsSaved, SettingsSavedOrMarked, PendingSaved, Cleared,
         Solved, Captured;
    match event
    case CarryChaperone(epoch) =>
      if !s.validProfile && s.chaperone.Armed? {
        SettingsSavedOrMarkedKeeps(Advanced(s.(chaperone := Moved(s.chaperone, epoch), settingsDirty := true)));
      }
    case Solve(universe, system) => SolvedKeeps(s, universe, system);
    case Capture(universe, system) => CapturedKeeps(s, universe, system);
    case Disarm => SettingsSavedKeeps(s.(chaperone := Disarmed, settingsDirty := true));
    case Flush => PendingSavedKeeps(s);
    case SaveEdit => if s.validProfile { ConfigWrittenKeeps(s, true); }
    case SaveSettings => SettingsSavedKeeps(s);
    case Clear => ClearedKeeps(s);
    case _ =>
  }

  lemma {:induction false} RunKeeps(s: Session, events: seq<Event>)
    requires Inv(s)
    ensures Inv(Run(s, events)) && Extends(s, Run(s, events))
    decreases |events|
  {
    if events != [] {
      AfterKeeps(s, events[0]);
      RunKeeps(After(s, events[0]), events[1..]);
    }
  }

  // ---------------------------------------------------------------------------
  // Whole histories
  // ---------------------------------------------------------------------------

  /** One process: it loads, does what it does, and dies after `landed` of its registry writes. */
  datatype Sitting = Sitting(settingsReadFails: bool, faults: seq<bool>, events: seq<Event>, landed: nat)

  function Booted(image: Image, faults: seq<bool>): Session {
    Session(image.config, image.settings, faults, [image],
            false, 0, 0, Disarmed, Missing, Missing, false, false, 0, false, false)
  }

  function End(image: Image, sitting: Sitting): Session {
    Run(Started(Booted(image, sitting.faults), sitting.settingsReadFails), sitting.events)
  }

  /** What a sitting leaves in the registry. */
  function LeftBy(image: Image, sitting: Sitting): Image {
    var end := End(image, sitting);
    if sitting.landed < |end.images| then end.images[sitting.landed] else end.Stored()
  }

  function History(image: Image, sittings: seq<Sitting>): Image
    decreases |sittings|
  {
    if sittings == [] then image else History(LeftBy(image, sittings[0]), sittings[1..])
  }

  predicate SoundStart(image: Image, sitting: Sitting) {
    && !LineageLost(image, sitting.settingsReadFails)
    && !HalfRepair(Booted(image, sitting.faults), sitting.settingsReadFails)
  }

  predicate SoundStarts(image: Image, sittings: seq<Sitting>)
    decreases |sittings|
  {
    sittings == [] || (SoundStart(image, sittings[0]) && SoundStarts(LeftBy(image, sittings[0]), sittings[1..]))
  }

  /** The room a load leaves armed is the one its calibration was made in. */
  predicate LoadMatches(image: Image, settingsReadFails: bool, faults: seq<bool>) {
    var t := Started(Booted(image, faults), settingsReadFails);
    t.validProfile && t.chaperone.Armed? ==> t.chaperone.center == t.calibrationEpoch
  }

  lemma LeftByKeeps(image: Image, sitting: Sitting)
    requires Recoverable(image) && SoundStart(image, sitting)
    ensures Recoverable(LeftBy(image, sitting))
  {
    hide Recoverable, Started;
    var booted := Booted(image, sitting.faults);
    StartedKeeps(booted, sitting.settingsReadFails);
    RunKeeps(Started(booted, sitting.settingsReadFails), sitting.events);
    var end := End(image, sitting);
    assert end.images[|end.images| - 1] == end.Stored();
  }

  /**
   Over every history of sittings, whatever fails and wherever each one dies, the next load arms
   no room from another rebase epoch, as long as no start before it was one of the two unsound ones.
   */
  lemma {:induction false} EveryLoadMatches(image: Image, sittings: seq<Sitting>)
    requires Recoverable(image) && SoundStarts(image, sittings)
    ensures Recoverable(History(image, sittings)) && Safe(History(image, sittings))
    ensures forall settingsReadFails, faults :: LoadMatches(History(image, sittings), settingsReadFails, faults)
    decreases |sittings|
  {
    if sittings != [] {
      LeftByKeeps(image, sittings[0]);
      EveryLoadMatches(LeftBy(image, sittings[0]), sittings[1..]);
    } else {
      RecoverableIsSafe(image);
      forall settingsReadFails, faults ensures LoadMatches(image, settingsReadFails, faults) {
        StartedKeeps(Booted(image, faults), settingsReadFails);
      }
    }
  }

  // ---------------------------------------------------------------------------
  // When a save succeeds, and what it has done then
  // ---------------------------------------------------------------------------

  /** None of the next `n` registry writes fails. */
  predicate Lands(faults: seq<bool>, n: nat) {
    forall i :: 0 <= i < n && i < |faults| ==> !faults[i]
  }

  function Later(faults: seq<bool>, n: nat): seq<bool> {
    if n >= |faults| then [] else faults[n..]
  }

  /** The gates let Settings be written: both records are known well enough, and the room has its owner on record. */
  predicate SettingsWritable(s: Session) {
    && !s.settingsLoadState.Unreadable? && (s.profileLoadState.Unreadable? ==> s.settingsLoadState.Loaded?)
    && (s.chaperone.Armed? ==> s.chaperone.ownerComplete)
  }

  /** They let Config be written: it was readable, and what it still has to hand over can be written first. */
  predicate ProfileWritable(s: Session) {
    !s.profileLoadState.Unreadable? && (s.migrationPending ==> SettingsWritable(s))
  }

  function ConfigWrites(s: Session): nat {
    if s.migrationPending then 2 else 1
  }

  function SaveWrites(s: Session): nat {
    1 + if s.profileDirty then ConfigWrites(s) else 0
  }

  predicate SettingsStored(s: Session) {
    s.settings == Settings(Some(s.revision), s.chaperone)
  }

  lemma SettingsWrittenExactly(s: Session)
    ensures var w := SettingsWritten(s); var t := w.after;
            && (w.ok <==> SettingsWritable(s) && !Fails(s.faults))
            && SameContext(s, t) && t.coupled == s.coupled && t.config == s.config
            && t.profileDirty == s.profileDirty && t.profileLoadState == s.profileLoadState
            && t.faults == (if SettingsWritable(s) then Rest(s.faults) else s.faults)
            && (if w.ok then SettingsStored(t) && !t.settingsDirty && t.settingsLoadState.Loaded? && !t.migrationPending
                else SettingsSame(s, t))
  {
  }

  /** A save left Settings as they were. */
  predicate SettingsSame(s: Session, t: Session) {
    && t.settings == s.settings && t.settingsDirty == s.settingsDirty
    && t.settingsLoadState == s.settingsLoadState && t.migrationPending == s.migrationPending
  }

  lemma ConfigWrittenExactly(s: Session, valid: bool)
    ensures var w := ConfigWritten(s, valid); var t := w.after;
            && (w.ok <==> ProfileWritable(s) && Lands(s.faults, ConfigWrites(s)))
            && SameContext(s, t) && t.coupled == s.coupled
            && (w.ok ==>
                 && t.config == LiveConfig(s, valid) && !t.profileDirty && !t.migrationPending
                 && t.profileLoadState == (if valid then Loaded else Missing)
                 && t.faults == Later(s.faults, ConfigWrites(s))
                 && (if s.migrationPending then SettingsStored(t) && !t.settingsDirty && t.settingsLoadState.Loaded?
                     else SettingsSame(s, t)))
            && (!w.ok ==>
                 && t.config == s.config && t.profileDirty == s.profileDirty && t.profileLoadState == s.profileLoadState
                 && ((SettingsStored(t) && !t.settingsDirty && t.settingsLoadState.Loaded? && !t.migrationPending)
                     || SettingsSame(s, t)))
  {
    hide SettingsWritten;
    SettingsWrittenExactly(s);
    var n := if s.migrationPending then 1 else 0;
    LandsInTurn(s.faults, 0);
    LandsInTurn(s.faults, n);
    assert Later(s.faults, 0) == s.faults;
  }

  /** The coupled save says which half it saved; Settings of a coupled change never go out before their Config. */
  lemma SettingsSavedExactly(s: Session)
    ensures var saved := SettingsSaved(s); var t := saved.after;
            && SameContext(s, t)
            && (saved.profileSaved <==> s.profileDirty ==> ProfileWritable(s) && Lands(s.faults, ConfigWrites(s)))
            && (saved.profileSaved && saved.settingsSaved <==>
                 (s.profileDirty ==> ProfileWritable(s)) && SettingsWritable(s) && Lands(s.faults, SaveWrites(s)))
            && (saved.settingsSaved ==>
                 SettingsStored(t) && !t.settingsDirty && !t.migrationPending && t.settingsLoadState.Loaded?)
            && (saved.profileSaved ==>
                 !t.profileDirty && t.config == if s.profileDirty then LiveConfig(s, s.validProfile) else s.config)
            && (saved.profileSaved && s.profileDirty ==> t.profileLoadState == if s.validProfile then Loaded else Missing)
            && (!(saved.profileSaved && s.profileDirty) ==> t.profileLoadState == s.profileLoadState)
            && (!saved.profileSaved ==> t.config == s.config && t.profileDirty)
            && (!saved.profileSaved && s.coupled ==> !saved.settingsSaved)
            && (saved.profileSaved && saved.settingsSaved ==>
                 !t.coupled && t.faults == Later(s.faults, SaveWrites(s)))
            && (!SettingsStored(t) ==> t.settings == s.settings)
            && (t.settingsDirty == s.settingsDirty || (SettingsStored(t) && !t.settingsDirty))
            && (t.settingsLoadState == s.settingsLoadState || (SettingsStored(t) && t.settingsLoadState.Loaded?))
            && (t.migrationPending ==> s.migrationPending)
  {
    hide ConfigWritten, SettingsWritten, SettingsStored, Lands;
    ConfigWrittenExactly(s, s.validProfile);
    var t := if s.profileDirty then ConfigWritten(s, s.validProfile).after else s;
    var n := if s.profileDirty then ConfigWrites(s) else 0;
    SettingsWrittenExactly(t);
    StoredFrom(s, t, SettingsWritten(t).after);
    LandsInTurn(s.faults, n);
    assert Later(s.faults, 0) == s.faults;
  }

  lemma LandsInTurn(faults: seq<bool>, n: nat)
    ensures Lands(faults, n + 1) <==> Lands(faults, n) && !Fails(Later(faults, n))
    ensures Rest(Later(faults, n)) == Later(faults, n + 1) && Lands(faults, 0)
  {
  }

  lemma StoredFrom(s: Session, t: Session, u: Session)
    requires SameContext(s, t) && SameContext(t, u)
    requires SettingsStored(t) || t.settings == s.settings
    requires SettingsStored(u) || u.settings == t.settings
    ensures SettingsStored(u) || u.settings == s.settings
    ensures u.settings == t.settings && SettingsStored(t) ==> SettingsStored(u)
    ensures SettingsStored(u) == SettingsStored(u.(coupled := false))
  {
  }

  /** A flush succeeds exactly when the gates let what is pending be written and no write fails; then nothing is pending. */
  lemma PendingSavedExactly(s: Session)
    ensures var w := PendingSaved(s); var t := w.after;
            && SameContext(s, t)
            && (w.ok <==>
                 && (s.profileDirty ==> ProfileWritable(s)) && (s.settingsDirty ==> SettingsWritable(s))
                 && Lands(s.faults, if s.settingsDirty then SaveWrites(s) else SaveWrites(s) - 1))
            && (w.ok ==>
                 && !t.profileDirty && !t.settingsDirty && !t.coupled
                 && t.config == (if s.profileDirty then LiveConfig(s, s.validProfile) else s.config)
                 && (s.settingsDirty ==> SettingsStored(t))
                 && (!s.settingsDirty ==> t.settings == s.settings || SettingsStored(t))
                 && (Readable(s) ==> Readable(t)))
  {
    hide ConfigWritten, SettingsSaved;
    SettingsSavedExactly(s);
    ConfigWrittenExactly(s, s.validProfile);
  }

  function ClearWrites(s: Session): nat {
    if s.settingsDirty then SaveWrites(s) + 1 else ConfigWrites(s)
  }

  /**
   Clearing succeeds exactly when the gates let the pending Settings and Config be written and no
   write fails. Then Config is gone from the registry and from memory, the Settings that were
   pending are stored, and no later start finds a calibration; otherwise the calibration stays live.
   */
  lemma ClearedExactly(s: Session, faults: seq<bool>, settingsReadFails: bool)
    ensures var w := Cleared(s); var t := w.after;
            && (w.ok <==>
                 && !s.profileLoadState.Unreadable? && (s.settingsDirty || s.migrationPending ==> SettingsWritable(s))
                 && Lands(s.faults, ClearWrites(s)))
            && (w.ok ==>
                 && t.config.NoConfig? && !t.validProfile && !t.profileDirty && t.profileLoadState.Missing?
                 && !t.settingsDirty && t.chaperone == s.chaperone && t.revision == s.revision
                 && (s.settingsDirty ==> SettingsStored(t))
                 && !Started(Booted(t.Stored(), faults), settingsReadFails).validProfile)
            && (!w.ok ==>
                 && SameContext(s, t) && (t.config == s.config || t.config == LiveConfig(s, s.validProfile)))
  {
    hide ConfigWritten, SettingsSaved, Adopted, Decision, FactsOf;
    if s.settingsDirty {
      SettingsSavedExactly(s);
      LandsInTurn(s.faults, SaveWrites(s));
    }
    var saved := if s.settingsDirty then SettingsSaved(s) else Saved(s, true, true);
    ConfigWrittenExactly(saved.after, false);
    if Cleared(s).ok {
      NoConfigStaysInvalid(Cleared(s).after.Stored(), faults, settingsReadFails);
    }
  }

  lemma NoConfigStaysInvalid(image: Image, faults: seq<bool>, settingsReadFails: bool)
    requires image.config.NoConfig?
    ensures !Started(Booted(image, faults), settingsReadFails).validProfile
  {
    hide SettingsSaved;
    SettingsSavedExactly(Adopted(Booted(image, faults), settingsReadFails));
  }

  // ---------------------------------------------------------------------------
  // What is not on disk is marked, and what is on disk comes back
  // ---------------------------------------------------------------------------

  /** Every live value is stored or marked as pending, and a live room is one the next load may arm. */
  predicate Honest(s: Session) {
    && s.revision >= 1 && (s.profileDirty ==> s.validProfile)
    && (s.chaperone.Armed? ==> s.chaperone.ownerComplete && (s.validProfile ==> s.chaperone.ownerSystem == s.referenceSystem))
    && (s.validProfile && !s.profileDirty ==>
         && s.config.Profile? && s.config.epoch == s.calibrationEpoch && s.config.referenceSystem == s.referenceSystem
         && (s.config.revision == Some(s.revision) || (s.config.revision.None? && s.revision == 1)))
    && (!s.validProfile && !s.profileLoadState.Unreadable? ==> s.config.NoConfig?)
    && (!s.settingsDirty && Readable(s) ==> SettingsStored(s))
  }

  predicate Readable(s: Session) {
    !s.settingsLoadState.Unreadable? && !s.profileLoadState.Unreadable?
  }

  lemma SettingsSavedHonest(s: Session)
    requires Honest(s)
    ensures Honest(SettingsSaved(s).after) && Honest(SettingsSavedOrMarked(s))
  {
    hide SettingsSaved;
    SettingsSavedExactly(s);
  }

  lemma PendingSavedHonest(s: Session)
    requires Honest(s)
    ensures Honest(PendingSaved(s).after)
  {
    hide SettingsSaved, ConfigWritten;
    SettingsSavedHonest(s);
    ConfigWrittenExactly(s, s.validProfile);
  }

  lemma ClearedHonest(s: Session)
    requires Honest(s)
    ensures Honest(Cleared(s).after)
  {
    hide SettingsSaved, ConfigWritten;
    SettingsSavedHonest(s);
    SettingsSavedExactly(s);
    var saved := if s.settingsDirty then SettingsSaved(s) else Saved(s, true, true);
    ConfigWrittenExactly(saved.after, false);
  }

  lemma SettingsSavedOrMarkedHonest(s: Session)
    requires Honest(s.(settingsDirty := true))
    ensures Honest(SettingsSavedOrMarked(s))
    ensures SameContext(s, SettingsSavedOrMarked(s))
    ensures SettingsSavedOrMarked(s).settingsDirty || SettingsStored(SettingsSavedOrMarked(s))
  {
    hide SettingsSaved;
    SettingsSavedExactly(s);
  }

  /** A capture puts the new room in place unless the one before it could not be switched off first. */
  lemma CapturedExactly(s: Session, universe: nat, system: nat)
    requires Honest(s)
    ensures var t := Captured(s, universe, system);
            && Honest(t)
            && (if s.validProfile && system != s.referenceSystem then t == s
                else
                  && (t.settingsDirty || SettingsStored(t))
                  && SameContext(s.(chaperone := t.chaperone), t)
                  && var replaced := s.chaperone.Disarmed? ||
                       ((s.profileDirty ==> ProfileWritable(s)) && SettingsWritable(s) && Lands(s.faults, SaveWrites(s)));
                     t.chaperone == if replaced then Armed(if s.validProfile then s.calibrationEpoch else universe, true, system)
                                    else s.chaperone)
  {
    hide SettingsSaved, SettingsSavedOrMarked;
    var marked := s.(settingsDirty := true);
    var off := if s.chaperone.Armed? then SettingsSaved(marked) else Saved(s, true, true);
    SettingsSavedHonest(marked);
    SettingsSavedExactly(marked);
    var t := off.after;
    if off.profileSaved && off.settingsSaved && !(s.validProfile && system != s.referenceSystem) {
      SettingsSavedOrMarkedHonest(t.(chaperone := Armed(if t.validProfile then t.calibrationEpoch else universe, true, system)));
    }
  }

  lemma AfterHonest(s: Session, event: Event)
    requires Honest(s)
    ensures Honest(After(s, event))
  {
    hide ConfigWritten, SettingsSaved, SettingsSavedOrMarked, PendingSaved, Cleared, Captured, Solved;
    match event
    case CarryChaperone(epoch) =>
      if !s.validProfile && s.chaperone.Armed? {
        SettingsSavedOrMarkedHonest(Advanced(s.(chaperone := Moved(s.chaperone, epoch), settingsDirty := true)));
      }
    case Solve(universe, system) => SolvedExactly(s, universe, system);
    case Capture(universe, system) => CapturedExactly(s, universe, system);
    case Disarm => SettingsSavedHonest(s.(chaperone := Disarmed, settingsDirty := true));
    case Flush => PendingSavedHonest(s);
    case SaveEdit => ConfigWrittenExactly(s, true);
    case SaveSettings => SettingsSavedHonest(s);
    case Clear => ClearedHonest(s);
    case _ =>
  }

  /** A solve is live at once, keeps only a room of its own baseline, and is stored or marked as pending. */
  lemma SolvedExactly(s: Session, universe: nat, system: nat)
    requires Honest(s)
    ensures var t := Solved(s, universe, system);
            && Honest(t)
            && t.validProfile && t.calibrationEpoch == universe && t.referenceSystem == system && t.revision == s.revision + 1
            && (s.chaperone.Armed? && s.chaperone.center == universe && s.chaperone.ownerSystem == system ==>
                 t.chaperone == s.chaperone)
            && (t.chaperone.Armed? ==> t.chaperone.center == universe && t.chaperone.ownerSystem == system)
            && (!s.profileLoadState.Unreadable? && !s.settingsLoadState.Unreadable? && Lands(s.faults, 3) ==>
                 t.config == LiveConfig(t, true) && SettingsStored(t) && !t.profileDirty && !t.settingsDirty)
  {
    hide PendingSaved;
    var kept := s.chaperone.Armed? && s.chaperone.ownerSystem == system && s.chaperone.center == universe;
    var solved := Advanced(s.(
                           validProfile := true, calibrationEpoch := universe, referenceSystem := system,
                           chaperone := if kept then s.chaperone else Disarmed, profileDirty := true, settingsDirty := true));
    PendingSavedHonest(solved);
    PendingSavedExactly(solved);
  }

  /** What the other events make of the context. */
  lemma EventMeans(s: Session, event: Event)
    requires Honest(s)
    ensures var t := After(s, event);
            match event
            case Rebase(epoch) =>
              if !s.validProfile then t == s
              else
                && t.validProfile && t.calibrationEpoch == epoch && t.referenceSystem == s.referenceSystem
                && (if s.chaperone.Armed? then t.chaperone == s.chaperone.(center := epoch) else t.chaperone.Disarmed?)
                && t.revision == s.revision + 1 && t.coupled && t.profileDirty && t.settingsDirty && t.Stored() == s.Stored()
            case CarryChaperone(epoch) =>
              if s.validProfile || s.chaperone.Disarmed? then t == s
              else
                && t.chaperone == s.chaperone.(center := epoch) && t.revision == s.revision + 1 && !t.validProfile
                && (t.settingsDirty || SettingsStored(t))
            case Snap =>
              if !s.validProfile then t == s
              else
                && SameContext(s.(revision := s.revision + 1), t)
                && t.coupled && t.profileDirty && t.settingsDirty && t.Stored() == s.Stored()
            case Correct => SameContext(s, t) && (s.validProfile ==> t.profileDirty) && t.Stored() == s.Stored()
            case ChangeSettings => SameContext(s, t) && t.settingsDirty && t.Stored() == s.Stored()
            case Disarm =>
              SameContext(s.(chaperone := Disarmed), t) && (t.settingsDirty || SettingsStored(t))
            case Clear => t.chaperone == s.chaperone && t.revision == s.revision && (t.validProfile ==> SameContext(s, t))
            case _ => event.Solve? || event.Capture? || SameContext(s, t)
  {
    hide SettingsSaved, ConfigWritten, PendingSaved, SettingsSavedOrMarked, Cleared, Solved, Captured, SettingsStored;
    match event
    case CarryChaperone(epoch) =>
      if !s.validProfile && s.chaperone.Armed? {
        SettingsSavedOrMarkedHonest(Advanced(s.(chaperone := Moved(s.chaperone, epoch), settingsDirty := true)));
      }
    case Disarm => SettingsSavedExactly(s.(chaperone := Disarmed, settingsDirty := true));
    case Flush => PendingSavedExactly(s);
    case SaveEdit => ConfigWrittenExactly(s, true);
    case SaveSettings => SettingsSavedExactly(s);
    case Clear => ClearedExactly(s, [], false);
    case _ =>
  }

  lemma AdoptedHonest(s: Session, settingsReadFails: bool)
    requires Recoverable(s.Stored())
    ensures Honest(Adopted(s, settingsReadFails))
  {
  }

  lemma StartedHonest(s: Session, settingsReadFails: bool)
    requires Recoverable(s.Stored())
    ensures Honest(Started(s, settingsReadFails))
  {
    hide Recoverable, SettingsSaved, Decision, Adopted;
    AdoptedHonest(s, settingsReadFails);
    SettingsSavedHonest(Adopted(s, settingsReadFails));
  }

  lemma {:induction false} RunHonest(s: Session, events: seq<Event>)
    requires Honest(s)
    ensures Honest(Run(s, events))
    decreases |events|
  {
    if events != [] {
      hide Honest;
      AfterHonest(s, events[0]);
      RunHonest(After(s, events[0]), events[1..]);
    }
  }

  /** With nothing pending, a restart gives back exactly what was live, and writes nothing. */
  lemma RestartRestores(s: Session, faults: seq<bool>)
    requires Honest(s) && !s.profileDirty && !s.settingsDirty && Readable(s)
    ensures var t := Started(Booted(s.Stored(), faults), false);
            && t.validProfile == s.validProfile && t.chaperone == s.chaperone && t.revision == s.revision
            && (s.validProfile ==> t.calibrationEpoch == s.calibrationEpoch && t.referenceSystem == s.referenceSystem)
            && !t.profileDirty && !t.settingsDirty && Readable(t) && t.images == [s.Stored()] && t.faults == faults
  {
  }

  /**
   Whatever a session has been through, failed saves included: once both records are readable and
   the writes of a flush land, the next start has the calibration and the room that were live.
   */
  lemma FlushSurvives(image: Image, sitting: Sitting, later: seq<bool>)
    requires Recoverable(image)
    requires Readable(End(image, sitting)) && Lands(End(image, sitting).faults, 3)
    ensures var s := End(image, sitting);
            var t := Started(Booted(PendingSaved(s).after.Stored(), later), false);
            && PendingSaved(s).ok
            && t.validProfile == s.validProfile && t.chaperone == s.chaperone && t.revision == s.revision
            && (s.validProfile ==> t.calibrationEpoch == s.calibrationEpoch && t.referenceSystem == s.referenceSystem)
  {
    hide Recoverable, Started, PendingSaved, Run, SettingsStored;
    var booted := Booted(image, sitting.faults);
    StartedHonest(booted, sitting.settingsReadFails);
    RunHonest(Started(booted, sitting.settingsReadFails), sitting.events);
    var s := End(image, sitting);
    PendingSavedExactly(s);
    PendingSavedHonest(s);
    RestartRestores(PendingSaved(s).after, later);
  }

  // ---------------------------------------------------------------------------
  // Both exceptions are real
  // ---------------------------------------------------------------------------

  /** Solves in a session that could not read Settings: Config catches up with them unseen. */
  predicate Drifting(s: Session, settings: SettingsCell, epoch: nat, system: nat) {
    && s.settings == settings && s.settingsLoadState.Unreadable? && !s.profileLoadState.Unreadable?
    && s.chaperone.Disarmed? && !s.migrationPending && s.faults == []
    && s.revision >= 1
    && (s.revision > 1 ==> s.config == Profile(Some(s.revision), epoch, system, Disarmed))
  }

  function Repeated(event: Event, times: nat): seq<Event> {
    if times == 0 then [] else [event] + Repeated(event, times - 1)
  }

  lemma {:induction false} SolvesDrift(s: Session, settings: SettingsCell, epoch: nat, system: nat, times: nat)
    requires Drifting(s, settings, epoch, system)
    ensures var t := Run(s, Repeated(Solve(epoch, system), times));
            Drifting(t, settings, epoch, system) && t.revision == s.revision + times
    decreases times
  {
    if times > 0 {
      var events := Repeated(Solve(epoch, system), times);
      assert events[0] == Solve(epoch, system) && events[1..] == Repeated(Solve(epoch, system), times - 1);
      SolvesDrift(Solved(s, epoch, system), settings, epoch, system, times - 1);
    }
  }

  /** One unreadable start with no Config, and no write failing, is enough. */
  lemma LineageLostGoesWrong(image: Image)
    requires LineageLost(image, true)
    ensures exists sitting: Sitting :: sitting.faults == [] && !Safe(LeftBy(image, sitting))
  {
    var room := image.settings.chaperone;
    var times := image.settings.revision.value - 1;
    var epoch, system := room.center + 1, room.ownerSystem;
    var events := Repeated(Solve(epoch, system), times);
    var started := Started(Booted(image, []), true);
    SolvesDrift(started, image.settings, epoch, system, times);
    var end := Run(started, events);
    var sitting := Sitting(true, [], events, |end.images|);
    assert LeftBy(image, sitting) == end.Stored();
    assert LoadArms(end.Stored(), false);
  }

  /** A legacy Config beside Settings that ran ahead: what the repair at load is for. */
  predicate NeedsRepair(image: Image) {
    && image.config.Profile? && image.config.revision.None?
    && image.settings.Settings? && image.settings.revision.Some? && image.settings.revision.value > 1
  }

  lemma HalfRepairSetsTheLatch(image: Image, later: seq<bool>)
    requires NeedsRepair(image)
    ensures var s := Started(Booted(image, [false, true] + later), false);
            var written := Image(LiveConfig(s, true), image.settings);
            && s.migrationPending && s.chaperone.Disarmed? && s.faults == later && s.coupled && s.settingsDirty
            && s.revision == image.settings.revision.value + 1 && s.validProfile && !s.profileDirty
            && s.calibrationEpoch == image.config.epoch && s.referenceSystem == image.config.referenceSystem
            && s.profileLoadState.Loaded? && s.settingsLoadState.Loaded?
            && s.Stored() == written && s.images == [image, written]
  {
    assert ([false, true] + later)[1..] == [true] + later;
    assert ([true] + later)[1..] == later;
  }

  /** With the latch set again, a capture and a rebase leave Settings one revision ahead of Config. */
  lemma SettingsLandFirst(s: Session, room: nat)
    requires s.migrationPending && s.chaperone.Disarmed? && s.faults == [true, false, true] && s.coupled
    requires s.validProfile && !s.profileDirty && s.settingsDirty && s.profileLoadState.Loaded? && s.settingsLoadState.Loaded?
    ensures var system := s.referenceSystem;
            Run(s, [Capture(0, system), Rebase(room), Flush]).images ==
            s.images + [Image(s.config, Settings(Some(s.revision + 1), Armed(room, true, system)))]
  {
    var system := s.referenceSystem;
    var captured := Captured(s, 0, system);
    assert captured ==
           s.(chaperone := Armed(s.calibrationEpoch, true, system), faults := [false, true], settingsDirty := true);
    var rebased := After(captured, Rebase(room));
    var flushed := PendingSaved(rebased).after;
    var ahead := Image(s.config, Settings(Some(s.revision + 1), Armed(room, true, system)));
    assert flushed.images == s.images + [ahead];
    assert Run(s, [Capture(0, system), Rebase(room), Flush]) == flushed by {
      hide Captured, PendingSaved;
      var events := [Capture(0, system), Rebase(room), Flush];
      assert events[1..] == [Rebase(room), Flush] && events[1..][1..] == [Flush] && [Flush][1..] == [];
      assert Run(s, events) == Run(captured, [Rebase(room), Flush]);
      assert Run(captured, [Rebase(room), Flush]) == Run(rebased, [Flush]);
      assert Run(rebased, [Flush]) == Run(flushed, []);
    }
  }

  /** The first sitting: the latch is set again over a Config that is no longer legacy. */
  lemma HalfRepairPutsSettingsFirst(image: Image, room: nat)
    requires NeedsRepair(image)
    ensures var n, system := image.settings.revision.value, image.config.referenceSystem;
            var half := Sitting(false, [false, true, true, false, true], [Capture(0, system), Rebase(room), Flush], 2);
            && HalfRepair(Booted(image, half.faults), false)
            && LeftBy(image, half) == Image(Profile(Some(n + 1), image.config.epoch, system, Disarmed),
                                            Settings(Some(n + 2), Armed(room, true, system)))
  {
    var faults := [false, true, true, false, true];
    assert faults == [false, true] + [true, false, true];
    HalfRepairSetsTheLatch(image, [true, false, true]);
    hide Started, Run;
    SettingsLandFirst(Started(Booted(image, faults), false), room);
  }

  /** The second sitting takes its revision from Config and meets the Settings that ran ahead. */
  lemma RevisionsMeet(image: Image, n: nat, epoch: nat)
    requires image.config.Profile? && image.config.revision == Some(n) && n >= 1
    requires image.settings.Settings? && image.settings.revision == Some(n + 1) && image.settings.chaperone.Armed?
    ensures var t := LeftBy(image, Sitting(false, [true], [Rebase(epoch), Flush], 1));
            && t.settings == image.settings
            && t.config == Profile(Some(n + 1), epoch, image.config.referenceSystem, Disarmed)
  {
    var s := Started(Booted(image, [true]), false);
    var rebased := After(s, Rebase(epoch));
    var flushed := PendingSaved(rebased).after;
    assert [Rebase(epoch), Flush][1..] == [Flush];
    assert [Flush][1..] == [];
    assert Run(s, [Rebase(epoch), Flush]) == Run(rebased, [Flush]);
    assert Run(rebased, [Flush]) == flushed;
  }

  /** No record is ever unreadable here: four failing writes and one restart are enough. */
  lemma HalfRepairGoesWrong(image: Image)
    requires NeedsRepair(image)
    ensures exists half: Sitting, next: Sitting ::
              && HalfRepair(Booted(image, half.faults), false) && !half.settingsReadFails && !next.settingsReadFails
              && !Safe(LeftBy(LeftBy(image, half), next))
  {
    var system := image.config.referenceSystem;
    var half := Sitting(false, [false, true, true, false, true], [Capture(0, system), Rebase(0), Flush], 2);
    var next := Sitting(false, [true], [Rebase(1), Flush], 1);
    HalfRepairPutsSettingsFirst(image, 0);
    RevisionsMeet(LeftBy(image, half), image.settings.revision.value + 1, 1);
    assert LoadArms(LeftBy(LeftBy(image, half), next), false);
  }

  // ---------------------------------------------------------------------------
  // The overlay, updated in place
  // ---------------------------------------------------------------------------

  class Overlay {
    var config: ConfigCell
    var settings: SettingsCell
    var faults: seq<bool>
    ghost var images: seq<Image>

    var validProfile: bool
    var calibrationEpoch: nat
    var referenceSystem: nat
    var chaperone: Chaperone
    var profileLoadState: RecordLoadState
    var settingsLoadState: RecordLoadState

    var profileDirty: bool
    var settingsDirty: bool
    var revision: nat
    var coupled: bool
    var legacySettingsMigrationPending: bool

    ghost function View(): Session
      reads this
    {
      Session(config, settings, faults, images, validProfile, calibrationEpoch, referenceSystem, chaperone,
              profileLoadState, settingsLoadState, profileDirty, settingsDirty, revision, coupled,
              legacySettingsMigrationPending)
    }

    constructor (image: Image, faults: seq<bool>)
      ensures View() == Booted(image, faults)
    {
      config, settings, this.faults, images := image.config, image.settings, faults, [image];
      validProfile, calibrationEpoch, referenceSystem, chaperone := false, 0, 0, Disarmed;
      profileLoadState, settingsLoadState, profileDirty, settingsDirty := Missing, Missing, false, false;
      revision, coupled, legacySettingsMigrationPending := 0, false, false;
    }

    method WriteRegistryValue(newConfig: ConfigCell, newSettings: SettingsCell) returns (ok: bool)
      requires newConfig == config || newSettings == settings
      modifies this
      ensures View() == Put(old(View()), Image(newConfig, newSettings)) && ok == !Fails(old(faults))
    {
      ok := faults == [] || !faults[0];
      faults := Rest(faults);
      if ok {
        config, settings := newConfig, newSettings;
        images := images + [Image(config, settings)];
      }
    }

    method WriteSettingsRecord() returns (ok: bool)
      modifies this
      ensures Written(View(), ok) == SettingsWritten(old(View()))
    {
      if !SettingsWriteAllowed(profileLoadState, settingsLoadState) {
        return false;
      }
      // The one refusal that depends on the chaperone.
      if chaperone.Armed? && !chaperone.ownerComplete {
        return false;
      }
      ok := WriteRegistryValue(config, Settings(Some(revision), chaperone));
      if ok {
        legacySettingsMigrationPending := false;
        settingsLoadState := Loaded;
        settingsDirty := false;
      }
    }

    method WriteConfigRecord(valid: bool) returns (ok: bool)
      modifies this
      ensures Written(View(), ok) == ConfigWritten(old(View()), valid)
    {
      if !ProfileWriteAllowed(profileLoadState, settingsLoadState, legacySettingsMigrationPending) {
        return false;
      }
      if legacySettingsMigrationPending {
        var migrated := WriteSettingsRecord();
        if !migrated {
          return false;
        }
      }
      var cell := if valid then Profile(Some(revision), calibrationEpoch, referenceSystem, Disarmed) else NoConfig;
      ok := WriteRegistryValue(cell, settings);
      if ok {
        profileDirty := false;
        profileLoadState := if valid then Loaded else Missing;
      }
    }

    method SaveProfile() returns (ok: bool)
      modifies this
      ensures Written(View(), ok) == ConfigWritten(old(View()), old(validProfile))
    {
      ok := WriteConfigRecord(validProfile);
    }

    method SaveSettingsRecords() returns (profileSaved: bool, settingsSaved: bool)
      modifies this
      ensures Saved(View(), profileSaved, settingsSaved) == SettingsSaved(old(View()))
    {
      profileSaved := true;
      if profileDirty {
        profileSaved := SaveProfile();
      }
      if !profileSaved && coupled {
        return false, false;
      }
      settingsSaved := WriteSettingsRecord();
      if !profileDirty && !settingsDirty {
        coupled := false;
      }
    }

    method SaveSettingsOrMark()
      modifies this
      ensures View() == SettingsSavedOrMarked(old(View()))
    {
      hide SettingsSaved;
      var profileSaved, settingsSaved := SaveSettingsRecords();
      if !(profileSaved && settingsSaved) {
        settingsDirty := true;
      }
    }

    method SavePendingChanges() returns (ok: bool)
      modifies this
      ensures Written(View(), ok) == PendingSaved(old(View()))
    {
      hide SettingsSaved, ConfigWritten;
      if settingsDirty {
        var profileSaved, settingsSaved := SaveSettingsRecords();
        return profileSaved && settingsSaved;
      }
      if profileDirty {
        var saved := SaveProfile();
        if !saved {
          return false;
        }
      }
      coupled := false;
      return true;
    }

    /** Settings that are pending go out first, because without a Config nothing orders them any more. */
    method ClearSavedProfile() returns (ok: bool)
      modifies this
      ensures Written(View(), ok) == Cleared(old(View()))
    {
      hide SettingsSaved, ConfigWritten;
      if settingsDirty {
        var profileSaved, settingsSaved := SaveSettingsRecords();
        if !(profileSaved && settingsSaved) {
          return false;
        }
      }
      ok := WriteConfigRecord(false);
      if ok {
        validProfile := false;
        profileDirty := false;
      }
    }

    method AdvanceRevision()
      modifies `revision, `coupled
      ensures revision == old(revision) + 1 && coupled
    {
      revision := revision + 1;
      coupled := true;
    }

    method RebaseUniverse(epoch: nat)
      requires validProfile
      modifies this
      ensures View() == After(old(View()), Rebase(epoch))
    {
      calibrationEpoch := epoch;
      AdvanceRevision();
      if chaperone.Armed? {
        chaperone := chaperone.(center := epoch);
      }
      settingsDirty := true;
      profileDirty := true;
    }

    method RebaseChaperone(epoch: nat)
      requires !validProfile && chaperone.Armed?
      modifies this
      ensures View() == After(old(View()), CarryChaperone(epoch))
    {
      hide SettingsSavedOrMarked;
      chaperone := chaperone.(center := epoch);
      AdvanceRevision();
      settingsDirty := true;
      SaveSettingsOrMark();
    }

    method MarkProfileAndSettings()
      modifies `profileDirty, `settingsDirty
      ensures profileDirty && settingsDirty
    {
      profileDirty, settingsDirty := true, true;
    }

    /** The calibration that was just solved; a room from another baseline does not outlive it. */
    method RebindUniverse(universe: nat, system: nat)
      modifies `validProfile, `calibrationEpoch, `referenceSystem, `chaperone
      ensures validProfile && calibrationEpoch == universe && referenceSystem == system
      ensures chaperone ==
              if old(chaperone).Armed? && old(chaperone).ownerSystem == system && old(chaperone).center == universe
              then old(chaperone) else Disarmed
    {
      validProfile, calibrationEpoch, referenceSystem := true, universe, system;
      if chaperone.Armed? && !(chaperone.ownerSystem == system && chaperone.center == universe) {
        chaperone := Disarmed;
      }
    }

    method CommitSolve(universe: nat, system: nat)
      modifies this
      ensures View() == After(old(View()), Solve(universe, system))
    {
      hide PendingSaved;
      RebindUniverse(universe, system);
      AdvanceRevision();
      MarkProfileAndSettings();
      var saved := SavePendingChanges();
    }

    method CaptureChaperone(universe: nat, system: nat)
      modifies this
      ensures View() == After(old(View()), Capture(universe, system))
    {
      hide SettingsSaved, SettingsSavedOrMarked;
      if validProfile && system != referenceSystem {
        return;
      }
      if chaperone.Armed? {
        settingsDirty := true;
        var profileSaved, settingsSaved := SaveSettingsRecords();
        if !(profileSaved && settingsSaved) {
          settingsDirty := true;
          return;
        }
      }
      chaperone := Armed(if validProfile then calibrationEpoch else universe, true, system);
      SaveSettingsOrMark();
    }

    method DisarmChaperoneAndPersist()
      modifies this
      ensures View() == After(old(View()), Disarm)
    {
      hide SettingsSaved;
      chaperone := Disarmed;
      settingsDirty := true;
      var profileSaved, settingsSaved := SaveSettingsRecords();
    }

    /** Each record is parsed into a copy and applied whole. */
    method ApplyRecords(settingsReadFails: bool)
      modifies `validProfile, `calibrationEpoch, `referenceSystem, `chaperone, `profileLoadState, `settingsLoadState
      ensures validProfile == config.Profile? && calibrationEpoch == EpochOf(config)
      ensures referenceSystem == if config.Profile? then config.referenceSystem else 0
      ensures chaperone == Parsed(config, settings, settingsReadFails)
      ensures profileLoadState == FactsOf(config, settings, settingsReadFails).profile
      ensures settingsLoadState == FactsOf(config, settings, settingsReadFails).settings
    {
      validProfile, calibrationEpoch, referenceSystem, chaperone := false, 0, 0, Disarmed;
      match config {
        case NoConfig => profileLoadState := Missing;
        case CorruptConfig => profileLoadState := Unreadable;
        case Profile(_, epoch, system, embedded) =>
          validProfile, calibrationEpoch, referenceSystem, chaperone := true, epoch, system, embedded;
          profileLoadState := Loaded;
      }
      if settingsReadFails || settings.CorruptSettings? {
        settingsLoadState := Unreadable;
      } else if settings.NoSettings? {
        settingsLoadState := Missing;
      } else {
        chaperone := settings.chaperone;
        settingsLoadState := Loaded;
      }
    }

    method ApplyPlan(plan: LoadPlan)
      modifies `chaperone, `profileDirty, `settingsDirty, `revision, `coupled, `legacySettingsMigrationPending
      ensures chaperone == if plan.disarmChaperone then Disarmed else old(chaperone)
      ensures revision == Positive(plan.revision) + if plan.profileRewriteNeeded then 1 else 0
      ensures coupled == plan.profileRewriteNeeded && profileDirty == plan.profileRewriteNeeded
      ensures settingsDirty == plan.settingsRewriteNeeded && legacySettingsMigrationPending == plan.migrationPending
    {
      coupled, profileDirty, settingsDirty := false, false, plan.settingsRewriteNeeded;
      revision := Positive(plan.revision);
      legacySettingsMigrationPending := plan.migrationPending;
      if plan.disarmChaperone {
        chaperone := Disarmed;
      }
      // Counted up before either record is written, as `Adopted` does.
      if plan.profileRewriteNeeded {
        AdvanceRevision();
        profileDirty := true;
      }
    }

    /** Everything in memory is replaced by what the registry gives. */
    method AdoptRecords(settingsReadFails: bool) returns (plan: LoadPlan)
      modifies this
      ensures View() == Adopted(old(View()), settingsReadFails)
      ensures plan == Decision(FactsOf(old(config), old(settings), settingsReadFails))
    {
      hide Decision, FactsOf, Parsed;
      ApplyRecords(settingsReadFails);
      plan := PlanPersistenceLoad(FactsOf(config, settings, settingsReadFails));
      ApplyPlan(plan);
    }

    method LoadProfile(settingsReadFails: bool)
      modifies this
      ensures View() == Started(old(View()), settingsReadFails)
    {
      hide SettingsSaved, Decision, FactsOf, Adopted;
      var plan := AdoptRecords(settingsReadFails);
      if plan.settingsRewriteNeeded {
        var profileSaved, settingsSaved := SaveSettingsRecords();
        if !(profileSaved && settingsSaved) {
          legacySettingsMigrationPending := plan.migrationPendingIfRewriteFails;
        }
      }
    }
  }
}
