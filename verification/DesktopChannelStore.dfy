/** The channel transactions, statement by statement: every read and check comes before the first write. */
module DesktopChannelStore {
  import opened Prelude
  import opened DesktopChannels

  class Store {
    var control: Option<Control>
    var stable: Option<Pointer>
    var beta: Option<Pointer>
    var manifests: map<ReleaseId, Manifest>
    var audits: map<string, Audit>

    ghost function View(): State
      reads this
    {
      State(control, stable, beta, manifests, audits)
    }

    constructor ()
      ensures View() == EMPTY
    {
      control, stable, beta, manifests, audits := None, None, None, map[], map[];
    }

    method ReserveBetaCandidate(tag: ReleaseId) returns (r: Result<Control, Error>)
      modifies `control
      ensures r == Reserve(old(control), tag) && View() == WithControl(old(View()), r)
    {
      if !tag.Tag? || tag.build == 0 {
        return Err(BadTag);
      }
      if control.None? {
        control := Some(Control(false, Some(tag), 1));
        return Ok(control.value);
      }
      var current := control.value;
      if current.reserved == Some(tag) {
        return Ok(current);
      }
      if current.reserved.Some? && current.reserved.value.Tag? {
        var reserved := current.reserved.value;
        if tag.build <= reserved.build || LessVersion(tag.version, reserved.version) {
          return Err(NotForward);
        }
      }
      control := Some(current.(reserved := Some(tag), generation := current.generation + 1));
      return Ok(control.value);
    }

    method SetBetaAdmissionEnabled(enabled: bool) returns (r: Result<Control, Error>)
      modifies `control
      ensures r == SetEnabled(old(control), enabled) && View() == WithControl(old(View()), r)
    {
      if control.None? {
        if enabled {
          return Err(NoReservation);
        }
        control := Some(Control(false, None, 1));
        return Ok(control.value);
      }
      var current := control.value;
      if current.enabled == enabled {
        return Ok(current);
      }
      if enabled && current.reserved.None? {
        return Err(NoReservation);
      }
      control := Some(current.(enabled := enabled, generation := current.generation + 1));
      return Ok(control.value);
    }

    method RegisterReleaseManifest(manifest: Manifest) returns (e: Option<Error>)
      modifies `manifests
      ensures (View(), e) == Register(old(View()), manifest)
    {
      if manifest.id in manifests {
        return if manifests[manifest.id] != manifest then Some(Collision) else None;
      }
      manifests := manifests[manifest.id := manifest];
      return None;
    }

    method PromoteChannel(how: Transition, release: ReleaseId, expectedGeneration: Option<nat>,
                          expectedCurrent: Option<ReleaseId>)
      returns (e: Option<Error>)
      modifies `stable
      ensures (View(), e) == PromoteStable(old(View()), how, release, expectedGeneration, expectedCurrent)
    {
      if how == BreakGlass {
        return Some(Invalid);
      }
      if how == Repoint && (expectedCurrent.None? || expectedGeneration.None?) {
        return Some(Invalid);
      }
      if release !in manifests {
        return Some(NoManifest);
      }
      var pointer := BuildPointer(stable, manifests[release], how, release, expectedGeneration, expectedCurrent);
      if pointer.Err? {
        return Some(pointer.error);
      }
      if stable != Some(pointer.value) {
        stable := Some(pointer.value);
      }
      return None;
    }

    method AdmitQualifiedBeta(manifest: Manifest, controlGeneration: nat) returns (e: Option<Error>)
      modifies `manifests, `beta
      ensures (View(), e) == Admit(old(View()), manifest, controlGeneration)
    {
      if control.None? {
        return Some(NoControl);
      }
      if !Canonical(manifest.id) {
        return Some(BadTag);
      }
      if !control.value.enabled {
        return Some(Disabled);
      }
      if control.value.generation != controlGeneration {
        return Some(GenerationChanged);
      }
      if control.value.reserved != Some(manifest.id) {
        return Some(WrongReservation);
      }
      var manifestExists := manifest.id in manifests;
      if manifestExists && manifests[manifest.id] != manifest {
        return Some(Collision);
      }
      var pointer := BuildPointer(beta, manifest, Promote, manifest.id, None, None);
      if pointer.Err? {
        return Some(pointer.error);
      }
      if !manifestExists {
        manifests := manifests[manifest.id := manifest];
      }
      if beta != Some(pointer.value) {
        beta := Some(pointer.value);
      }
      return None;
    }

    method CommitBreakGlass(request: Request, operation: Operation) returns (e: Option<Error>)
      modifies `control, `beta, `manifests, `audits
      ensures (View(), e) == BreakGlassCommit(old(View()), request, operation)
    {
      if operation.Rollout? && operation.emergency.id != request.target {
        return Some(Invalid);
      }
      if request.id in audits {
        return Some(UsedRequest);
      }
      if control.None? {
        return Some(NoControl);
      }
      if beta.None? || beta.value.release != request.current {
        return Some(CurrentMismatch);
      }
      if beta.value.generation != request.generation {
        return Some(GenerationChanged);
      }
      var target: Manifest;
      var targetExists := request.target in manifests;
      if operation == Rollback {
        if !targetExists {
          return Some(NoManifest);
        }
        target := manifests[request.target];
        if target.tier == Emergency {
          return Some(BadManifest);
        }
      } else {
        target := operation.emergency;
        if targetExists && manifests[request.target] != target {
          return Some(Collision);
        }
        if target.tier != Emergency || target.passed {
          return Some(BadManifest);
        }
        if target.build <= beta.value.build {
          return Some(NotForward);
        }
      }
      var pointer :=
        BuildPointer(beta, target, BreakGlass, request.target, Some(request.generation), Some(request.current));
      if pointer.Err? {
        return Some(pointer.error);
      }
      audits := audits[request.id := Audit(operation, request, pointer.value.generation)];
      if operation.Rollout? && !targetExists {
        manifests := manifests[request.target := target];
      }
      control := Some(control.value.(enabled := false, generation := control.value.generation + 1));
      beta := Some(pointer.value);
      return None;
    }
  }
}
