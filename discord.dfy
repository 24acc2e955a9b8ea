/**
 * The part of the chat runtime that the cogs read and change: snowflake ids,
 * roles, guild members whose role set a cog updates in place, and the decimal
 * text of an id (`str(guild.id)`), which the invite filter uses as its table key.
 */
module Discord {

  /** A snowflake id; the runtime's ids are non-negative integers. */
  type Snowflake = nat

  /** A role as the cogs see it. Roles compare equal exactly when their ids do,
      so a member's roles are kept as a set of ids. */
  datatype Role = Role(id: Snowflake, name: string)

  /** A guild member; `roles` holds the ids of the roles the member has. */
  class Member {
    var roles: set<Snowflake>

    constructor (held: set<Snowflake>)
      ensures roles == held
    {
      roles := held;
    }

    /** `member.add_roles(role)`: granting a role already held changes nothing. */
    method AddRole(id: Snowflake)
      modifies this
      ensures roles == old(roles) + {id}
    {
      roles := roles + {id};
    }

    /** `member.remove_roles(role)`. */
    method RemoveRole(id: Snowflake)
      modifies this
      ensures roles == old(roles) - {id}
    {
      roles := roles - {id};
    }
  }

  function Digit(d: nat): (c: char)
    requires d < 10
    ensures '0' <= c <= '9'
  {
    (48 + d) as char
  }

  /** `str(n)` for a non-negative integer: its decimal digits, most significant first. */
  function IdString(n: nat): (s: string)
    ensures |s| >= 1
    ensures forall i :: 0 <= i < |s| ==> '0' <= s[i] <= '9'
    ensures |s| == 1 <==> n < 10
    ensures s[|s| - 1] == Digit(n % 10)
  {
    if n < 10 then [Digit(n)] else IdString(n / 10) + [Digit(n % 10)]
  }

  /** Distinct ids have distinct keys: the string table never merges two guilds. */
  lemma {:induction false} IdStringInjective(a: nat, b: nat)
    requires IdString(a) == IdString(b)
    ensures a == b
  {
    var s := IdString(a);
    assert Digit(a % 10) == Digit(b % 10);
    assert a % 10 == b % 10;
    if a >= 10 {
      assert b >= 10;
      assert IdString(a / 10) == s[..|s| - 1] == IdString(b / 10);
      IdStringInjective(a / 10, b / 10);
    }
  }
}
