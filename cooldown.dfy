/**
 The cooldown gate of rpi/main_system.py, rpi/backup.py and rpi/check.py: a map from track id
 to the time that id was last announced, and the time of the last announcement of any id.
 The clock is not read here; every call takes the current time `now`.
 */
module Cooldown {

  const PerIdCooldownSec: real := 4.0
  const GlobalCooldownSec: real := 1.5

  class CooldownGate {
    var lastSpokenById: map<int, real>
    var lastGlobalSpoken: real

    /** The process starts with an empty map and a global time of 0.0; an unknown id counts as
        announced at 0.0 too, so nothing may be announced before time PerIdCooldownSec. */
    constructor ()
      ensures lastSpokenById == map[] && lastGlobalSpoken == 0.0
      ensures forall id, t :: CanSpeak(id, t) <==> t >= PerIdCooldownSec
    {
      lastSpokenById := map[];
      lastGlobalSpoken := 0.0;
    }

    /** `last_spoken_by_id.get(track_id, 0.0)` */
    function LastSpoken(trackId: int): real
      reads this
    {
      if trackId in lastSpokenById then lastSpokenById[trackId] else 0.0
    }

    /** Refuses within the global cooldown of the last announcement, then within the per-id
        cooldown of this id's last announcement. */
    predicate CanSpeak(trackId: int, now: real)
      reads this
      ensures CanSpeak(trackId, now) <==>
        now - lastGlobalSpoken >= GlobalCooldownSec && now - LastSpoken(trackId) >= PerIdCooldownSec
    {
      if now - lastGlobalSpoken < GlobalCooldownSec then false
      else
        var lastT := LastSpoken(trackId);
        if now - lastT < PerIdCooldownSec then false
        else true
    }

    /** Records an announcement of `trackId` at `now`; every other id keeps its entry. */
    method MarkSpoken(trackId: int, now: real)
      modifies this
      ensures lastSpokenById == old(lastSpokenById)[trackId := now]
      ensures lastGlobalSpoken == now
      ensures forall id :: id != trackId ==> LastSpoken(id) == old(LastSpoken(id))
      // the same id is refused for PerIdCooldownSec, and allowed again from then on
      ensures forall t :: CanSpeak(trackId, t) <==> t - now >= PerIdCooldownSec
      // any id is refused for GlobalCooldownSec
      ensures forall id, t :: t - now < GlobalCooldownSec ==> !CanSpeak(id, t)
      // after the global cooldown another id is governed by its own history alone
      ensures forall id, t :: id != trackId ==>
        (CanSpeak(id, t) <==> t - now >= GlobalCooldownSec && t - old(LastSpoken(id)) >= PerIdCooldownSec)
    {
      lastSpokenById := lastSpokenById[trackId := now];
      lastGlobalSpoken := now;
    }
  }
}
