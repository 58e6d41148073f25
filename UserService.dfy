/**
 * The TypeScript user service over an in-memory store of users and of the tutorials' links to
 * users (a tutorial's tutor and correctors). A user's tutorials are the tutorials whose tutor is
 * the user; its tutorials to correct are those listing the user as a corrector.
 */
module UserService {
  import opened Wrappers

  datatype Role = Admin | Corrector | Tutor | Employee

  datatype User = User(id: string, firstname: string, lastname: string, username: string, email: string, roles: seq<Role>)

  /** What a tutorial knows about its users. */
  datatype Link = Link(tutor: Option<string>, correctors: seq<string>)

  /** The client's data to create or update a user. */
  datatype UserDTO = UserDTO(
    firstname: string,
    lastname: string,
    username: string,
    email: string,
    roles: seq<Role>,
    tutorials: seq<string>,
    tutorialsToCorrect: seq<string>)

  function DuplicateUsernameMessage(username: string): string {
    "A user with the username '" + username + "' already exists."
  }

  const TutorRoleMessage := "A user with tutorials needs to have the 'TUTOR' role"
  const CorrectorRoleMessage := "A user with tutorials to correct needs to have the 'CORRECTOR' role"
  const RemoveLastAdminMessage := "ERR_REMOVE_LAST_ADMIN_ROLE"
  const DeleteLastAdminMessage := "ERR_DELETE_LAST_ADMIN"

  function TutorialNotFoundMessage(id: string): string {
    "Tutorial with the ID " + id + " could not be found."
  }

  function UserNotFoundMessage(id: string): string {
    "User with the ID '" + id + "' could not be found."
  }

  /** Whether a user other than `self` (any user, when there is no `self`) has the username. */
  predicate UsernameTaken(users: seq<User>, username: string, self: Option<string>) {
    exists i :: 0 <= i < |users| && users[i].username == username && (self.None? || users[i].id != self.value)
  }

  /** Searches the users for another user with the username. */
  method DoesUserWithUsernameExist(users: seq<User>, username: string, self: Option<string>) returns (taken: bool)
    ensures taken == UsernameTaken(users, username, self)
  {
    for i := 0 to |users|
      invariant forall k :: 0 <= k < i ==> !(users[k].username == username && (self.None? || users[k].id != self.value))
    {
      if users[i].username == username && (self.None? || users[i].id != self.value) {
        return true;
      }
    }
    return false;
  }

  /**
   * The checks of a user's data: the username must be free, a user with tutorials must be a
   * tutor and a user with tutorials to correct must be a corrector, checked in that order.
   */
  function CheckUserDTO(users: seq<User>, dto: UserDTO, self: Option<string>): (r: Result<(), string>)
    ensures r.Ok? <==>
      !UsernameTaken(users, dto.username, self) &&
      (|dto.tutorials| > 0 ==> Tutor in dto.roles) &&
      (|dto.tutorialsToCorrect| > 0 ==> Corrector in dto.roles)
    ensures UsernameTaken(users, dto.username, self) ==> r == Err(DuplicateUsernameMessage(dto.username))
  {
    if UsernameTaken(users, dto.username, self) then Err(DuplicateUsernameMessage(dto.username))
    else if |dto.tutorials| > 0 && Tutor !in dto.roles then Err(TutorRoleMessage)
    else if |dto.tutorialsToCorrect| > 0 && Corrector !in dto.roles then Err(CorrectorRoleMessage)
    else Ok(())
  }

  /** Runs the checks of a user's data, searching the users for the username first. */
  method CheckUser(users: seq<User>, dto: UserDTO, self: Option<string>) returns (r: Result<(), string>)
    ensures r == CheckUserDTO(users, dto, self)
  {
    var taken := DoesUserWithUsernameExist(users, dto.username, self);
    if taken {
      return Err(DuplicateUsernameMessage(dto.username));
    }
    if |dto.tutorials| > 0 && Tutor !in dto.roles {
      return Err(TutorRoleMessage);
    }
    if |dto.tutorialsToCorrect| > 0 && Corrector !in dto.roles {
      return Err(CorrectorRoleMessage);
    }
    r := Ok(());
  }

  /** The number of admins. */
  function AdminCount(users: seq<User>): (r: nat)
    ensures r <= |users|
  {
    if users == [] then 0
    else AdminCount(users[..|users| - 1]) + (if Admin in users[|users| - 1].roles then 1 else 0)
  }

  /** An admin is the last one exactly when no other user is an admin. */
  lemma {:induction false} LastAdmin(users: seq<User>, i: int)
    requires 0 <= i < |users| && Admin in users[i].roles
    ensures AdminCount(users) <= 1 <==> forall j :: 0 <= j < |users| && j != i ==> Admin !in users[j].roles
  {
    var init := users[..|users| - 1];
    if i == |users| - 1 {
      NoAdmins(init);
      assert forall j :: 0 <= j < |init| ==> init[j] == users[j];
    } else {
      LastAdmin(init, i);
      NoAdmins(init);
      assert init[i] == users[i];
      assert forall j :: 0 <= j < |init| ==> init[j] == users[j];
    }
  }

  /** There are no admins exactly when no user is an admin. */
  lemma {:induction false} NoAdmins(users: seq<User>)
    ensures AdminCount(users) == 0 <==> forall j :: 0 <= j < |users| ==> Admin !in users[j].roles
  {
    if users != [] {
      var init := users[..|users| - 1];
      NoAdmins(init);
      assert forall j :: 0 <= j < |init| ==> init[j] == users[j];
    }
  }

  /** Taking the ADMIN role from the last admin is refused. */
  function AssertUserIsChangeable(users: seq<User>, user: User, dto: UserDTO): (r: Result<(), string>)
    ensures r.Err? <==> Admin in user.roles && Admin !in dto.roles && AdminCount(users) <= 1
    ensures r.Err? ==> r.error == RemoveLastAdminMessage
  {
    if Admin in user.roles && Admin !in dto.roles && AdminCount(users) <= 1 then Err(RemoveLastAdminMessage) else Ok(())
  }

  /** Deleting the last admin is refused. */
  function AssertUserIsDeletable(users: seq<User>, user: User): (r: Result<(), string>)
    ensures r.Err? <==> Admin in user.roles && AdminCount(users) <= 1
    ensures r.Err? ==> r.error == DeleteLastAdminMessage
  {
    if Admin in user.roles && AdminCount(users) <= 1 then Err(DeleteLastAdminMessage) else Ok(())
  }

  /** When a stored admin passes either check, another admin remains. */
  lemma AdminChecksKeepAnAdmin(users: seq<User>, i: int, dto: UserDTO)
    requires 0 <= i < |users| && Admin in users[i].roles
    ensures AssertUserIsDeletable(users, users[i]).Ok? ==> exists j :: 0 <= j < |users| && j != i && Admin in users[j].roles
    ensures AssertUserIsChangeable(users, users[i], dto).Ok? && Admin !in dto.roles ==>
      exists j :: 0 <= j < |users| && j != i && Admin in users[j].roles
  {
    LastAdmin(users, i);
  }

  /** The first listed tutorial that does not exist. */
  function FirstMissing(ids: seq<string>, tutorials: map<string, Link>): (r: Option<string>)
    ensures r.None? <==> forall k :: 0 <= k < |ids| ==> ids[k] in tutorials
    ensures r.Some? ==> r.value in ids && r.value !in tutorials
  {
    if ids == [] then None
    else if ids[0] !in tutorials then Some(ids[0])
    else FirstMissing(ids[1..], tutorials)
  }

  /** The links after a new user `id` becomes tutor of `asTutor` and corrector of `asCorrector`. */
  function WithNewUser(tutorials: map<string, Link>, id: string, asTutor: seq<string>, asCorrector: seq<string>): (r: map<string, Link>)
    ensures r.Keys == tutorials.Keys
    ensures forall t :: t in r ==>
      r[t].tutor == (if t in asTutor then Some(id) else tutorials[t].tutor) &&
      r[t].correctors == tutorials[t].correctors + (if t in asCorrector then [id] else [])
  {
    map t | t in tutorials ::
      Link(if t in asTutor then Some(id) else tutorials[t].tutor,
           tutorials[t].correctors + (if t in asCorrector then [id] else []))
  }

  /** The outcome of creating one user with the fresh id `id`. */
  function CreateOutcome(users: seq<User>, tutorials: map<string, Link>, dto: UserDTO, id: string): (r: Result<User, string>)
    ensures r.Ok? <==> (CheckUserDTO(users, dto, None).Ok? &&
      (forall k :: 0 <= k < |dto.tutorials| ==> dto.tutorials[k] in tutorials) &&
      (forall k :: 0 <= k < |dto.tutorialsToCorrect| ==> dto.tutorialsToCorrect[k] in tutorials))
    ensures r.Ok? ==> r.value == User(id, dto.firstname, dto.lastname, dto.username, dto.email, dto.roles)
  {
    match CheckUserDTO(users, dto, None)
    case Err(e) => Err(e)
    case Ok(_) =>
      match FirstMissing(dto.tutorials + dto.tutorialsToCorrect, tutorials)
      case Some(missing) => Err(TutorialNotFoundMessage(missing))
      case None =>
        assert forall k :: 0 <= k < |dto.tutorials| ==> (dto.tutorials + dto.tutorialsToCorrect)[k] == dto.tutorials[k];
        assert forall k :: 0 <= k < |dto.tutorialsToCorrect| ==>
          (dto.tutorials + dto.tutorialsToCorrect)[|dto.tutorials| + k] == dto.tutorialsToCorrect[k];
        Ok(User(id, dto.firstname, dto.lastname, dto.username, dto.email, dto.roles))
  }

  /** The state of a batch creation: the store and the created users and error messages so far. */
  datatype Batch = Batch(users: seq<User>, tutorials: map<string, Link>, created: seq<User>, errors: seq<string>)

  /** The error line of a user that could not be created. */
  function ErrorLine(dto: UserDTO, message: string): string {
    "[" + dto.lastname + ", " + dto.firstname + "]: " + message
  }

  /** The batch after trying to create each of the first `n` users in turn. */
  function CreateAll(users: seq<User>, tutorials: map<string, Link>, dtos: seq<UserDTO>, ids: seq<string>, n: nat): (b: Batch)
    requires n <= |dtos| == |ids|
    ensures b.users == users + b.created
    ensures |b.created| + |b.errors| == n
  {
    if n == 0 then Batch(users, tutorials, [], [])
    else
      var b := CreateAll(users, tutorials, dtos, ids, n - 1);
      var dto := dtos[n - 1];
      match CreateOutcome(b.users, b.tutorials, dto, ids[n - 1])
      case Ok(u) => Batch(b.users + [u], WithNewUser(b.tutorials, u.id, dto.tutorials, dto.tutorialsToCorrect), b.created + [u], b.errors)
      case Err(e) => Batch(b.users, b.tutorials, b.created, b.errors + [ErrorLine(dto, e)])
  }

  /** Every created user carries one of the fresh ids. */
  lemma {:induction false} CreatedIds(users: seq<User>, tutorials: map<string, Link>, dtos: seq<UserDTO>, ids: seq<string>, n: nat)
    requires n <= |dtos| == |ids|
    ensures forall k :: 0 <= k < |CreateAll(users, tutorials, dtos, ids, n).created| ==>
      CreateAll(users, tutorials, dtos, ids, n).created[k].id in ids
  {
    if n > 0 {
      CreatedIds(users, tutorials, dtos, ids, n - 1);
    }
  }

  /** The users whose id is not among `ids`. */
  function Without(users: seq<User>, ids: seq<string>): (r: seq<User>)
    ensures forall k :: 0 <= k < |users| && users[k].id !in ids ==> users[k] in r
  {
    if users == [] then []
    else
      var init := Without(users[..|users| - 1], ids);
      assert forall k :: 0 <= k < |users| - 1 ==> users[..|users| - 1][k] == users[k];
      if users[|users| - 1].id in ids then init else init + [users[|users| - 1]]
  }

  lemma {:induction false} WithoutAppend(a: seq<User>, b: seq<User>, ids: seq<string>)
    ensures Without(a + b, ids) == Without(a, ids) + Without(b, ids)
  {
    if b == [] {
      assert a + b == a;
    } else {
      var last := b[|b| - 1];
      WithoutAppend(a, b[..|b| - 1], ids);
      assert (a + b)[..|a + b| - 1] == a + b[..|b| - 1];
      assert (a + b)[|a + b| - 1] == last;
      assert Without(a + b, ids) == Without(a + b[..|b| - 1], ids) + (if last.id in ids then [] else [last]);
      assert Without(b, ids) == Without(b[..|b| - 1], ids) + (if last.id in ids then [] else [last]);
    }
  }

  lemma {:induction false} WithoutNone(users: seq<User>, ids: seq<string>)
    requires forall k :: 0 <= k < |users| ==> users[k].id !in ids
    ensures Without(users, ids) == users
  {
    if users != [] {
      var init := users[..|users| - 1];
      WithoutNone(init, ids);
      assert init + [users[|users| - 1]] == users;
    }
  }

  lemma {:induction false} WithoutAll(users: seq<User>, ids: seq<string>)
    requires forall k :: 0 <= k < |users| ==> users[k].id in ids
    ensures Without(users, ids) == []
  {
    if users != [] {
      WithoutAll(users[..|users| - 1], ids);
    }
  }

  /** The ids of the users, in order. */
  function Ids(users: seq<User>): (r: seq<string>)
    ensures |r| == |users| && forall k :: 0 <= k < |r| ==> r[k] == users[k].id
  {
    if users == [] then [] else Ids(users[..|users| - 1]) + [users[|users| - 1].id]
  }

  /** The tutorials whose tutor is the user. */
  function TutorialsOf(tutorials: map<string, Link>, id: string): set<string> {
    set t | t in tutorials && tutorials[t].tutor == Some(id)
  }

  /** The tutorials listing the user as a corrector. */
  function CorrectedBy(tutorials: map<string, Link>, id: string): set<string> {
    set t | t in tutorials && id in tutorials[t].correctors
  }

  /** The links after the user stops being tutor of the tutorials not in `keep`. */
  function DropTutor(tutorials: map<string, Link>, id: string, keep: seq<string>): (r: map<string, Link>)
    ensures r.Keys == tutorials.Keys
  {
    map t | t in tutorials :: if tutorials[t].tutor == Some(id) && t !in keep then Link(None, tutorials[t].correctors) else tutorials[t]
  }

  /** The links after the user becomes tutor of the tutorials in `add`. */
  function AddTutor(tutorials: map<string, Link>, id: string, add: seq<string>): (r: map<string, Link>)
    ensures r.Keys == tutorials.Keys
  {
    map t | t in tutorials :: if t in add then Link(Some(id), tutorials[t].correctors) else tutorials[t]
  }

  /** The correctors without the user. */
  function Remove(correctors: seq<string>, id: string): (r: seq<string>)
    ensures id !in r
    ensures forall c :: c in correctors && c != id ==> c in r
  {
    if correctors == [] then []
    else (if correctors[0] == id then [] else [correctors[0]]) + Remove(correctors[1..], id)
  }

  /** The links after the user stops correcting the tutorials not in `keep`. */
  function DropCorrector(tutorials: map<string, Link>, id: string, keep: seq<string>): (r: map<string, Link>)
    ensures r.Keys == tutorials.Keys
  {
    map t | t in tutorials :: if id in tutorials[t].correctors && t !in keep then Link(tutorials[t].tutor, Remove(tutorials[t].correctors, id)) else tutorials[t]
  }

  /** The links after the user also corrects the tutorials in `add`; earlier correctors stay. */
  function AddCorrector(tutorials: map<string, Link>, id: string, add: seq<string>): (r: map<string, Link>)
    ensures r.Keys == tutorials.Keys
  {
    map t | t in tutorials :: if t in add && id !in tutorials[t].correctors then Link(tutorials[t].tutor, tutorials[t].correctors + [id]) else tutorials[t]
  }

  /** The links after the four steps of an update of user `id`. */
  function Updated(tutorials: map<string, Link>, id: string, dto: UserDTO): map<string, Link> {
    var tutored := AddTutor(DropTutor(tutorials, id, dto.tutorials), id, dto.tutorials);
    AddCorrector(DropCorrector(tutored, id, dto.tutorialsToCorrect), id, dto.tutorialsToCorrect)
  }

  /** At one tutorial, the tutor steps make the user its tutor exactly when it is listed, and keep its correctors. */
  lemma TutorStepsAt(tutorials: map<string, Link>, id: string, listed: seq<string>, t: string)
    requires t in tutorials
    ensures var r := AddTutor(DropTutor(tutorials, id, listed), id, listed);
      t in r && (r[t].tutor == Some(id) <==> t in listed) && r[t].correctors == tutorials[t].correctors
  {
  }

  /** At one tutorial, the corrector steps make the user a corrector exactly when it is listed, and keep its tutor. */
  lemma CorrectorStepsAt(tutorials: map<string, Link>, id: string, listed: seq<string>, t: string)
    requires t in tutorials
    ensures var r := AddCorrector(DropCorrector(tutorials, id, listed), id, listed);
      t in r && (id in r[t].correctors <==> t in listed) && r[t].tutor == tutorials[t].tutor
  {
    var dropped := DropCorrector(tutorials, id, listed);
    assert t !in listed && id in tutorials[t].correctors ==> id !in dropped[t].correctors;
  }

  /** After an update the user tutors exactly the listed tutorials and corrects exactly the listed ones. */
  lemma UpdatedLinks(tutorials: map<string, Link>, id: string, dto: UserDTO)
    requires forall k :: 0 <= k < |dto.tutorials| ==> dto.tutorials[k] in tutorials
    requires forall k :: 0 <= k < |dto.tutorialsToCorrect| ==> dto.tutorialsToCorrect[k] in tutorials
    ensures TutorialsOf(Updated(tutorials, id, dto), id) == set t | t in dto.tutorials
    ensures CorrectedBy(Updated(tutorials, id, dto), id) == set t | t in dto.tutorialsToCorrect
  {
    var tutored := AddTutor(DropTutor(tutorials, id, dto.tutorials), id, dto.tutorials);
    var final := Updated(tutorials, id, dto);
    forall t | t in tutorials
      ensures (final[t].tutor == Some(id) <==> t in dto.tutorials)
      ensures (id in final[t].correctors <==> t in dto.tutorialsToCorrect)
    {
      TutorStepsAt(tutorials, id, dto.tutorials, t);
      CorrectorStepsAt(tutored, id, dto.tutorialsToCorrect, t);
    }
    forall t | t in dto.tutorials
      ensures t in tutorials
    {
      var k :| 0 <= k < |dto.tutorials| && dto.tutorials[k] == t;
    }
    forall t | t in dto.tutorialsToCorrect
      ensures t in tutorials
    {
      var k :| 0 <= k < |dto.tutorialsToCorrect| && dto.tutorialsToCorrect[k] == t;
    }
  }

  /** The position of the user with the id, if there is one. */
  function FindUser(users: seq<User>, id: string): (r: Option<nat>)
    ensures r.None? <==> forall k :: 0 <= k < |users| ==> users[k].id != id
    ensures r.Some? ==> r.value < |users| && users[r.value].id == id
  {
    if users == [] then None
    else match FindUser(users[..|users| - 1], id)
      case Some(k) => Some(k)
      case None => if users[|users| - 1].id == id then Some(|users| - 1) else None
  }

  class UserStore {
    var users: seq<User>
    var tutorials: map<string, Link>

    constructor(users: seq<User>, tutorials: map<string, Link>)
      ensures this.users == users && this.tutorials == tutorials
    {
      this.users := users;
      this.tutorials := tutorials;
    }

    /**
     * Creates a user with the fresh id `id`: checks the data, looks up the tutorials, stores the
     * user and makes it tutor and corrector of the listed tutorials. A failure changes nothing.
     */
    method CreateUser(dto: UserDTO, id: string) returns (r: Result<User, string>)
      modifies this
      ensures r == CreateOutcome(old(users), old(tutorials), dto, id)
      ensures r.Ok? ==> users == old(users) + [r.value] && tutorials == WithNewUser(old(tutorials), id, dto.tutorials, dto.tutorialsToCorrect)
      ensures r.Err? ==> users == old(users) && tutorials == old(tutorials)
    {
      var check := CheckUser(users, dto, None);
      if check.Err? {
        return Err(check.error);
      }
      var missing := FirstMissing(dto.tutorials + dto.tutorialsToCorrect, tutorials);
      if missing.Some? {
        return Err(TutorialNotFoundMessage(missing.value));
      }
      var user := User(id, dto.firstname, dto.lastname, dto.username, dto.email, dto.roles);
      users := users + [user];
      tutorials := WithNewUser(tutorials, id, dto.tutorials, dto.tutorialsToCorrect);
      r := Ok(user);
    }

    /**
     * Creates the users one after the other with the fresh ids `ids`, collecting one error line
     * per user that fails. When any fails, the created users are removed again and the error
     * lines are returned; the tutorials keep the links set while creating them.
     */
    method CreateMany(dtos: seq<UserDTO>, ids: seq<string>) returns (r: Result<seq<User>, seq<string>>)
      requires |ids| == |dtos|
      requires forall k, j :: 0 <= k < |users| && 0 <= j < |ids| ==> users[k].id != ids[j]
      modifies this
      ensures var b := CreateAll(old(users), old(tutorials), dtos, ids, |dtos|);
        (r.Err? <==> |b.errors| > 0) &&
        (r.Err? ==> r.error == b.errors && users == old(users) && tutorials == b.tutorials) &&
        (r.Ok? ==> r.value == b.created && users == b.users && tutorials == b.tutorials)
    {
      var created: seq<User> := [];
      var errors: seq<string> := [];
      for k := 0 to |dtos|
        invariant Batch(users, tutorials, created, errors) == CreateAll(old(users), old(tutorials), dtos, ids, k)
      {
        var outcome := CreateUser(dtos[k], ids[k]);
        match outcome {
          case Ok(u) => created := created + [u];
          case Err(e) => errors := errors + [ErrorLine(dtos[k], e)];
        }
      }
      if |errors| > 0 {
        CreatedIds(old(users), old(tutorials), dtos, ids, |dtos|);
        RemoveCreated(old(users), created, ids);
        users := Without(users, Ids(created));
        return Err(errors);
      }
      r := Ok(created);
    }

    /**
     * Creates the users like `CreateMany`, but when any fails it also puts the tutorials' links
     * back as they were, so that a failed batch changes nothing.
     */
    method CreateManyAtomic(dtos: seq<UserDTO>, ids: seq<string>) returns (r: Result<seq<User>, seq<string>>)
      requires |ids| == |dtos|
      requires forall k, j :: 0 <= k < |users| && 0 <= j < |ids| ==> users[k].id != ids[j]
      modifies this
      ensures var b := CreateAll(old(users), old(tutorials), dtos, ids, |dtos|);
        (r.Err? <==> |b.errors| > 0) &&
        (r.Err? ==> r.error == b.errors && users == old(users) && tutorials == old(tutorials)) &&
        (r.Ok? ==> r.value == b.created && users == b.users && tutorials == b.tutorials)
    {
      var before := tutorials;
      r := CreateMany(dtos, ids);
      if r.Err? {
        tutorials := before;
      }
    }

    /**
     * Updates the user `id`: checks the data (the user may keep its own username) and the admin
     * rule, unlinks it from the tutorials it no longer tutors, links it to the new ones, does
     * the same for the tutorials to correct, and stores the new data. A missing tutorial is
     * reported after the unlinking steps before it have been done.
     */
    method Update(id: string, dto: UserDTO) returns (r: Result<User, string>)
      modifies this
      ensures r.Ok? <==> (
        FindUser(old(users), id).Some? &&
        CheckUserDTO(old(users), dto, Some(id)).Ok? &&
        AssertUserIsChangeable(old(users), old(users)[FindUser(old(users), id).value], dto).Ok? &&
        (forall k :: 0 <= k < |dto.tutorials| ==> dto.tutorials[k] in old(tutorials)) &&
        (forall k :: 0 <= k < |dto.tutorialsToCorrect| ==> dto.tutorialsToCorrect[k] in old(tutorials)))
      ensures r.Ok? ==> (
        var i := FindUser(old(users), id).value;
        r.value == User(id, dto.firstname, dto.lastname, dto.username, dto.email, dto.roles) &&
        users == old(users)[i := r.value] &&
        tutorials == Updated(old(tutorials), id, dto) &&
        TutorialsOf(tutorials, id) == (set t | t in dto.tutorials) &&
        CorrectedBy(tutorials, id) == (set t | t in dto.tutorialsToCorrect))
      ensures r.Err? ==> users == old(users)
    {
      var found := FindUser(users, id);
      if found.None? {
        return Err(UserNotFoundMessage(id));
      }
      var user := users[found.value];
      var check := CheckUser(users, dto, Some(id));
      if check.Err? {
        return Err(check.error);
      }
      var changeable := AssertUserIsChangeable(users, user, dto);
      if changeable.Err? {
        return Err(changeable.error);
      }
      tutorials := DropTutor(tutorials, id, dto.tutorials);
      var missingTutorial := FirstMissing(dto.tutorials, tutorials);
      if missingTutorial.Some? {
        return Err(TutorialNotFoundMessage(missingTutorial.value));
      }
      tutorials := AddTutor(tutorials, id, dto.tutorials);
      tutorials := DropCorrector(tutorials, id, dto.tutorialsToCorrect);
      var missingToCorrect := FirstMissing(dto.tutorialsToCorrect, tutorials);
      if missingToCorrect.Some? {
        return Err(TutorialNotFoundMessage(missingToCorrect.value));
      }
      tutorials := AddCorrector(tutorials, id, dto.tutorialsToCorrect);
      UpdatedLinks(old(tutorials), id, dto);
      var updated := User(id, dto.firstname, dto.lastname, dto.username, dto.email, dto.roles);
      users := users[found.value := updated];
      r := Ok(updated);
    }

    /** Deletes the user `id` unless it is the last admin; the tutorials it tutored lose their tutor. */
    method Delete(id: string) returns (r: Result<User, string>)
      modifies this
      ensures r.Ok? <==> (FindUser(old(users), id).Some? &&
        AssertUserIsDeletable(old(users), old(users)[FindUser(old(users), id).value]).Ok?)
      ensures r.Ok? ==> (r.value == old(users)[FindUser(old(users), id).value] &&
        users == Without(old(users), [id]) && tutorials == DropTutor(old(tutorials), id, []) &&
        TutorialsOf(tutorials, id) == {})
      ensures r.Err? ==> users == old(users) && tutorials == old(tutorials)
    {
      var found := FindUser(users, id);
      if found.None? {
        return Err(UserNotFoundMessage(id));
      }
      var user := users[found.value];
      var deletable := AssertUserIsDeletable(users, user);
      if deletable.Err? {
        return Err(deletable.error);
      }
      tutorials := DropTutor(tutorials, id, []);
      users := Without(users, [id]);
      r := Ok(user);
    }
  }

  /** Removing the created users by their ids gives back the users from before. */
  lemma RemoveCreated(before: seq<User>, created: seq<User>, ids: seq<string>)
    requires forall k, j :: 0 <= k < |before| && 0 <= j < |ids| ==> before[k].id != ids[j]
    requires forall k :: 0 <= k < |created| ==> created[k].id in ids
    ensures Without(before + created, Ids(created)) == before
  {
    WithoutAppend(before, created, Ids(created));
    WithoutNone(before, Ids(created));
    WithoutAll(created, Ids(created));
  }

  /**
   * A failed batch keeps the links it set: the first of two users with the same username is
   * created and made tutor of "t", the second fails, and after the created user is removed
   * again "t" still names it as its tutor.
   */
  lemma CreateAllKeepsLinksOfRemovedUser()
    ensures var dto := UserDTO("Ada", "Lovelace", "ada", "", [Tutor], ["t"], []);
      var b := CreateAll([], map["t" := Link(None, [])], [dto, dto], ["u1", "u2"], 2);
      |b.errors| == 1 && b.created == [User("u1", "Ada", "Lovelace", "ada", "", [Tutor])] &&
      "t" in b.tutorials && b.tutorials["t"].tutor == Some("u1")
  {
    var dto := UserDTO("Ada", "Lovelace", "ada", "", [Tutor], ["t"], []);
    var tutorials := map["t" := Link(None, [])];
    var u1 := User("u1", "Ada", "Lovelace", "ada", "", [Tutor]);
    var dtos, ids := [dto, dto], ["u1", "u2"];
    assert dtos[0] == dto && dtos[1] == dto && ids[0] == "u1" && ids[1] == "u2";
    assert CreateAll([], tutorials, dtos, ids, 0) == Batch([], tutorials, [], []);
    assert CheckUserDTO([], dto, None) == Ok(());
    assert FirstMissing(dto.tutorials + dto.tutorialsToCorrect, tutorials) == None by {
      assert dto.tutorials + dto.tutorialsToCorrect == ["t"];
    }
    assert CreateOutcome([], tutorials, dto, "u1") == Ok(u1);
    var links := WithNewUser(tutorials, "u1", ["t"], []);
    assert CreateAll([], tutorials, dtos, ids, 1) == Batch([u1], links, [u1], []);
    assert UsernameTaken([u1], "ada", None) by {
      assert [u1][0].username == "ada";
    }
    assert CreateOutcome([u1], links, dto, "u2").Err?;
  }
}
