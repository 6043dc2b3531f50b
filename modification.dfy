/** `EnhancedModuleModification` (app/ark_engine/core/models_enhanced.py)
    and `EnhancedARKController` (app/ark_engine/core/controller_enhanced.py):
    the modification record with its harmony score, community impact and
    meditation notes, and the controller that proposes such records. */
module Modification {
  import opened Wrappers
  import opened Context

  class EnhancedModuleModification {
    var modificationId: string
    var targetComponent: string
    var componentType: string
    var level: string
    var originalVersion: string
    var modifiedVersion: string
    var description: string
    var rationale: string
    var author: string
    var harmonyScore: Option<real>
    var communityImpact: Context
    var meditationNotes: seq<string>

    /** The dataclass constructor: the nine named fields as given, and the
        three optional ones as given or by their defaults (no harmony score,
        and an impact map and a notes list of its own). */
    constructor (modificationId: string, targetComponent: string, componentType: string, level: string,
                 originalVersion: string, modifiedVersion: string, description: string, rationale: string,
                 author: string, harmonyScore: Option<real> := None, communityImpact: Context := map[],
                 meditationNotes: seq<string> := [])
      ensures this.modificationId == modificationId && this.targetComponent == targetComponent
      ensures this.componentType == componentType && this.level == level
      ensures this.originalVersion == originalVersion && this.modifiedVersion == modifiedVersion
      ensures this.description == description && this.rationale == rationale && this.author == author
      ensures this.harmonyScore == harmonyScore && this.communityImpact == communityImpact
      ensures this.meditationNotes == meditationNotes
    {
      this.modificationId := modificationId;
      this.targetComponent := targetComponent;
      this.componentType := componentType;
      this.level := level;
      this.originalVersion := originalVersion;
      this.modifiedVersion := modifiedVersion;
      this.description := description;
      this.rationale := rationale;
      this.author := author;
      this.harmonyScore := harmonyScore;
      this.communityImpact := communityImpact;
      this.meditationNotes := meditationNotes;
    }

    /** `add_meditation_note(note)`: appends the note and touches nothing else. */
    method AddMeditationNote(note: string)
      modifies this
      ensures meditationNotes == old(meditationNotes) + [note]
      ensures modificationId == old(modificationId) && targetComponent == old(targetComponent)
      ensures componentType == old(componentType) && level == old(level)
      ensures originalVersion == old(originalVersion) && modifiedVersion == old(modifiedVersion)
      ensures description == old(description) && rationale == old(rationale) && author == old(author)
      ensures harmonyScore == old(harmonyScore) && communityImpact == old(communityImpact)
    {
      meditationNotes := meditationNotes + [note];
    }
  }

  /** Adding a note to one record leaves every other record's notes and
      impact as they were. The model holds the notes as a value, so this
      follows from the frame of `AddMeditationNote`; the sharing of one
      mutable default list between records, which `default_factory`
      prevents, cannot be expressed here. */
  method NotesNotShared(a: EnhancedModuleModification, b: EnhancedModuleModification, note: string)
    requires a != b
    modifies a
    ensures a.meditationNotes == old(a.meditationNotes) + [note]
    ensures b.meditationNotes == old(b.meditationNotes) && b.communityImpact == old(b.communityImpact)
  {
    a.AddMeditationNote(note);
  }

  /** `TelemetrySystem`: its only operation logs an event. */
  class TelemetrySystem {
    constructor () {}
  }

  class EnhancedARKController {
    const telemetry: TelemetrySystem
    const config: Context

    /** `__init__`: a missing telemetry system is replaced by a new one, a
        missing or empty configuration by an empty one. */
    constructor (telemetry: Option<TelemetrySystem>, config: Option<Context>)
      ensures telemetry.Some? ==> this.telemetry == telemetry.value
      ensures telemetry.None? ==> fresh(this.telemetry)
      ensures this.config == if config.Some? then config.value else map[]
    {
      if telemetry.Some? {
        this.telemetry := telemetry.value;
      } else {
        this.telemetry := new TelemetrySystem();
      }
      this.config := if config.Some? then config.value else map[];
    }

    /** `propose_enhanced_modification`: a new record for the target, with
        harmony 0.75 exactly when the vibration transform is applied, which
        it is by default. */
    method ProposeEnhancedModification(targetComponent: string, modifiedVersion: string, description: string,
                                       rationale: string, level: string := "code_optimization",
                                       author: string := "system", applyVibrationTransform: bool := true)
      returns (m: EnhancedModuleModification)
      ensures fresh(m)
      ensures m.modificationId == "mod_" + targetComponent
      ensures m.targetComponent == targetComponent && m.componentType == "module"
      ensures m.level == level && m.originalVersion == "" && m.modifiedVersion == modifiedVersion
      ensures m.description == description && m.rationale == rationale && m.author == author
      ensures m.harmonyScore == if applyVibrationTransform then Some(0.75) else None
      ensures m.communityImpact == map[] && m.meditationNotes == []
    {
      m := new EnhancedModuleModification(
        "mod_" + targetComponent, targetComponent, "module", level, "", modifiedVersion,
        description, rationale, author);
      if applyVibrationTransform {
        m.harmonyScore := Some(0.75);
      }
    }
  }

  /** A proposal made with only the four required arguments is a code
      optimization by "system", with the vibration transform applied and
      so a harmony score of 0.75. */
  method DefaultProposal(c: EnhancedARKController, targetComponent: string, modifiedVersion: string,
                         description: string, rationale: string)
    returns (m: EnhancedModuleModification)
    ensures fresh(m)
    ensures m.level == "code_optimization" && m.author == "system"
    ensures m.harmonyScore == Some(0.75)
  {
    m := c.ProposeEnhancedModification(targetComponent, modifiedVersion, description, rationale);
  }
}
