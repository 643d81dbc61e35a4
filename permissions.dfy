/**
 * The administrator test that the dashboard applies to the guilds of the
 * logged-in user: a guild may be managed when the caller owns it or when the
 * Discord permission mask has the ADMINISTRATOR bit (0x8) set.
 */
module Permissions {
  import opened Wrappers

  /** The bit value of Discord's ADMINISTRATOR permission. */
  const ADMINISTRATOR: nat := 8

  /** One guild of the session's guild list, as the OAuth guild listing returns it. */
  datatype SessionGuild = SessionGuild(id: string, owner: bool, permissions: nat)

  /** Bitwise AND of two non-negative integers, as `BigInt` `&` computes it. */
  function BitAnd(a: nat, b: nat): nat
    decreases a
  {
    if a == 0 || b == 0 then 0
    else 2 * BitAnd(a / 2, b / 2) + (if a % 2 == 1 && b % 2 == 1 then 1 else 0)
  }

  /** `owner || (BigInt(permissions) & 0x8n) === 0x8n` */
  predicate IsAdmin(owner: bool, permissions: nat)
  {
    owner || BitAnd(permissions, ADMINISTRATOR) == ADMINISTRATOR
  }

  /** Masking with the administrator bit keeps exactly bit 3 of the mask. */
  lemma {:induction false} AdministratorMask(p: nat)
    ensures BitAnd(p, ADMINISTRATOR) == if (p / 8) % 2 == 1 then 8 else 0
  {
    calc {
      BitAnd(p, 8);
      2 * BitAnd(p / 2, 4);
      { assert BitAnd(p / 2, 4) == 2 * BitAnd(p / 4, 2) by { assert (p / 2) / 2 == p / 4; } }
      4 * BitAnd(p / 4, 2);
      { assert BitAnd(p / 4, 2) == 2 * BitAnd(p / 8, 1) by { assert (p / 4) / 2 == p / 8; } }
      8 * BitAnd(p / 8, 1);
    }
    assert BitAnd(p / 8, 1) == (if (p / 8) % 2 == 1 then 1 else 0);
  }

  /** The administrator test holds exactly for owners and for masks with bit 3 set. */
  lemma AdminIff(owner: bool, p: nat)
    ensures IsAdmin(owner, p) <==> owner || (p / 8) % 2 == 1
  {
    AdministratorMask(p);
  }

  /** `guilds.find((g) => g.id === id)`: the first guild with that id. */
  function FindGuild(guilds: seq<SessionGuild>, id: string): (r: Option<SessionGuild>)
    ensures r.None? <==> forall i :: 0 <= i < |guilds| ==> guilds[i].id != id
    ensures r.Some? ==> exists i :: 0 <= i < |guilds| && guilds[i] == r.value && r.value.id == id
                                    && forall j :: 0 <= j < i ==> guilds[j].id != id
  {
    if guilds == [] then None
    else if guilds[0].id == id then Some(guilds[0])
    else
      var r := FindGuild(guilds[1..], id);
      assert r.Some? ==> exists i :: 1 <= i < |guilds| && guilds[i] == r.value && r.value.id == id
                                    && forall j :: 0 <= j < i ==> guilds[j].id != id by {
        if r.Some? {
          var k :| 0 <= k < |guilds[1..]| && guilds[1..][k] == r.value && r.value.id == id
                   && forall j :: 0 <= j < k ==> guilds[1..][j].id != id;
          assert guilds[k + 1] == r.value;
        }
      }
      r
  }

  /**
   * The permission gate of the settings and player handlers: the guild is in
   * the session's list and its first entry there passes the administrator test.
   */
  predicate MayManage(guilds: seq<SessionGuild>, id: string)
  {
    match FindGuild(guilds, id)
    case None => false
    case Some(g) => IsAdmin(g.owner, g.permissions)
  }

  /** The guild list filter applied at login and on the dashboard page. */
  function AdminGuilds(guilds: seq<SessionGuild>): (r: seq<SessionGuild>)
    ensures forall g :: g in r ==> g in guilds && IsAdmin(g.owner, g.permissions)
    ensures forall g :: g in guilds && IsAdmin(g.owner, g.permissions) ==> g in r
    ensures |r| <= |guilds|
  {
    if guilds == [] then []
    else if IsAdmin(guilds[0].owner, guilds[0].permissions) then [guilds[0]] + AdminGuilds(guilds[1..])
    else AdminGuilds(guilds[1..])
  }

  /**
   * On a session list that went through the login filter, the permission gate
   * holds exactly when some administered guild of the user has that id.
   */
  lemma {:induction false} MayManageFiltered(guilds: seq<SessionGuild>, id: string)
    ensures MayManage(AdminGuilds(guilds), id)
            <==> exists g :: g in guilds && g.id == id && IsAdmin(g.owner, g.permissions)
  {
    var filtered := AdminGuilds(guilds);
    match FindGuild(filtered, id)
    case None =>
    case Some(g) =>
      assert g in filtered;
  }
}
