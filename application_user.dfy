/** The `ApplicationUser` entity: a user account whose `Username` setter
    keeps `NormalizedUsername` in step. */
module Models {
  import opened Common
  import opened Numbers

  /** The avatar every new account starts with. */
  const DefaultPfpUrl: string := "https://tr.rbxcdn.com/38c6edcb50633730ff4cf39ac8859840/420/420/Hat/Png"

  /** `DateOnly`. */
  datatype Date = Date(year: int, month: int, day: int)

  /** Upper case of one character, for the ASCII letters. */
  function UpperChar(c: char): char {
    if 'a' <= c <= 'z' then (c as int - 'a' as int + 'A' as int) as char else c
  }

  /** `string.ToUpper()`, restricted to ASCII letters: every character is
      kept in place and only `a` to `z` change. */
  function ToUpper(s: string): (r: string)
    ensures |r| == |s|
    ensures forall i | 0 <= i < |s| :: r[i] == UpperChar(s[i])
  {
    if s == [] then [] else [UpperChar(s[0])] + ToUpper(s[1..])
  }

  /** Normalising twice changes nothing more than normalising once, and the
      result holds no lower-case ASCII letter. */
  lemma ToUpperIdempotent(s: string)
    ensures ToUpper(ToUpper(s)) == ToUpper(s)
    ensures forall i | 0 <= i < |s| :: !('a' <= ToUpper(s)[i] <= 'z')
  {
  }

  /** Two user names normalise alike iff they agree up to ASCII case. */
  lemma ToUpperCaseInsensitive(s: string, t: string)
    ensures ToUpper(s) == ToUpper(t) <==> |s| == |t| && forall i | 0 <= i < |s| :: UpperChar(s[i]) == UpperChar(t[i])
  {
    var us, ut := ToUpper(s), ToUpper(t);
    if us == ut {
      assert |s| == |t|;
      forall i | 0 <= i < |s| ensures UpperChar(s[i]) == UpperChar(t[i]) {
        assert us[i] == ut[i];
      }
    }
    if |s| == |t| && forall i | 0 <= i < |s| :: UpperChar(s[i]) == UpperChar(t[i]) {
      assert forall i | 0 <= i < |us| :: us[i] == ut[i];
    }
  }

  class ApplicationUser {
    var PfpUrl: string
    var IsOnline: bool
    var IsAdmin: bool
    var Bio: Option<string>
    var DOB: Option<Date>
    /** The relation collections, each related row standing for its key. */
    var FavoriteGames: set<int>
    var FavoriteTags: set<int>
    var Groups: set<int>
    var Chats: set<int>
    var UserId: Int32
    /** The backing field of `Username`. */
    var username: string
    var NormalizedUsername: string
    var PasswordHash: string
    var Email: string

    /** The normalisation invariant. */
    ghost predicate Valid()
      reads this
    {
      NormalizedUsername == ToUpper(username)
    }

    /** A new user with every property at its declared default. */
    constructor ()
      ensures Valid()
      ensures PfpUrl == DefaultPfpUrl && !IsOnline && !IsAdmin && Bio.None? && DOB.None?
      ensures FavoriteGames == {} && FavoriteTags == {} && Groups == {} && Chats == {}
      ensures UserId == 0
      ensures username == "" && NormalizedUsername == "" && PasswordHash == "" && Email == ""
    {
      PfpUrl := DefaultPfpUrl;
      IsOnline, IsAdmin := false, false;
      Bio, DOB := None, None;
      FavoriteGames, FavoriteTags, Groups, Chats := {}, {}, {}, {};
      UserId := 0;
      username := "";
      NormalizedUsername := "";
      PasswordHash := "";
      Email := "";
    }

    /** The `Username` getter. */
    function Username(): string
      reads this
    {
      username
    }

    /** The `Username` setter: writes the name and its normalised form
      together, and touches nothing else. */
    method SetUsername(value: string)
      modifies this`username, this`NormalizedUsername
      ensures Username() == value && NormalizedUsername == ToUpper(value)
      ensures Valid()
    {
      username := value;
      NormalizedUsername := ToUpper(value);
    }

    /** The public `NormalizedUsername` setter: it writes only that field, so
        the invariant survives it exactly when the value written is the
        normalised current name. */
    method SetNormalizedUsername(value: string)
      modifies this`NormalizedUsername
      ensures NormalizedUsername == value
      ensures Valid() <==> value == ToUpper(username)
    {
      NormalizedUsername := value;
    }
  }

  /** A direct `NormalizedUsername` write can leave the object out of step:
      a new user given the normalised name "X" while its name is still empty. */
  method NormalizedUsernameWriteBreaksInvariant() returns (user: ApplicationUser)
    ensures !user.Valid()
  {
    user := new ApplicationUser();
    user.SetNormalizedUsername("X");
  }
}
