/** actions/ceremony-actions.ts: creating, updating and deleting ceremony types. A ceremony that
    some prompt uses cannot be deleted. */
module CeremonyActions {
  import opened Results
  import opened Schema
  import opened Auth
  import opened Store

  const AllFieldsRequired := "All fields are required"
  const CreateFailed := "Failed to create ceremony"
  const UpdateFailed := "Failed to update ceremony"
  const HasPrompts := "Cannot delete ceremony with associated prompts"
  const DeleteFailed := "Failed to delete ceremony"

  /** Some of name, description, duration, frequency and color is empty. */
  predicate MissingCeremonyField(name: string, description: string, duration: string,
                                 frequency: string, color: string)
  {
    name == "" || description == "" || duration == "" || frequency == "" || color == ""
  }

  /** `createCeremony`. */
  method CreateCeremony(db: Store, current: Option<User>, name: string, description: string,
                        duration: string, frequency: string, color: string) returns (r: Result<Id>)
    requires db.Valid()
    modifies db
    ensures db.Valid()
    ensures var t := old(db.data);
      if RequireRole(current, ScrumMaster).Err? then r == Err(CreateFailed) && db.data == t
      else if MissingCeremonyField(name, description, duration, frequency, color) then
        r == Err(AllFieldsRequired) && db.data == t
      else r == Ok(NextId(t))
           && db.data == AddCeremony(t, Ceremony(name, description, duration, frequency, color, current.value.id))
  {
    var auth := RequireRole(current, ScrumMaster);
    if auth.Err? {
      return Err(CreateFailed);
    }
    if MissingCeremonyField(name, description, duration, frequency, color) {
      return Err(AllFieldsRequired);
    }
    var id := db.InsertCeremony(Ceremony(name, description, duration, frequency, color, auth.value.id));
    r := Ok(id);
  }

  /** The row `updateCeremony` writes: the five editable fields replaced, the creator kept. */
  function Edited(c: Ceremony, name: string, description: string, duration: string,
                  frequency: string, color: string): (e: Ceremony)
    ensures e.createdById == c.createdById
    ensures e.name == name && e.description == description && e.duration == duration
    ensures e.frequency == frequency && e.color == color
  {
    c.(name := name, description := description, duration := duration, frequency := frequency, color := color)
  }

  /** `updateCeremony`: the id is required too; a missing ceremony makes the store's update
      fail. */
  method UpdateCeremony(db: Store, current: Option<User>, id: string, name: string, description: string,
                        duration: string, frequency: string, color: string) returns (r: Result<Id>)
    requires db.Valid()
    modifies db
    ensures db.Valid()
    ensures var t := old(db.data);
      if RequireRole(current, ScrumMaster).Err? then r == Err(UpdateFailed) && db.data == t
      else if id == "" || MissingCeremonyField(name, description, duration, frequency, color) then
        r == Err(AllFieldsRequired) && db.data == t
      else if id !in t.ceremonies then r == Err(UpdateFailed) && db.data == t
      else r == Ok(id)
           && db.data == UpdateCeremonyRow(t, id, Edited(t.ceremonies[id], name, description, duration, frequency, color))
  {
    var auth := RequireRole(current, ScrumMaster);
    if auth.Err? {
      return Err(UpdateFailed);
    }
    if id == "" || MissingCeremonyField(name, description, duration, frequency, color) {
      return Err(AllFieldsRequired);
    }
    if id !in db.data.ceremonies {
      return Err(UpdateFailed);
    }
    db.UpdateCeremony(id, Edited(db.data.ceremonies[id], name, description, duration, frequency, color));
    r := Ok(id);
  }

  /** An update touches that one ceremony only. */
  lemma UpdateTouchesOne(t: Tables, id: Id, row: Ceremony)
    requires id in t.ceremonies
    ensures var t' := UpdateCeremonyRow(t, id, row);
            && t'.ceremonies.Keys == t.ceremonies.Keys && t'.ceremonies[id] == row
            && (forall c :: c in t.ceremonies && c != id ==> t'.ceremonies[c] == t.ceremonies[c])
            && t'.prompts == t.prompts
  {
  }

  /** `prompt.count({ where: { ceremonyId } })` is zero exactly when no prompt uses the ceremony. */
  lemma NoPromptUses(t: Tables, id: Id)
    ensures PromptCountOfCeremony(t, id) == 0 <==> forall p :: p in t.prompts ==> t.prompts[p].ceremonyId != id
  {
    var using := set p | p in t.prompts && t.prompts[p].ceremonyId == id;
    if p :| p in t.prompts && t.prompts[p].ceremonyId == id {
      assert p in using;
    }
  }

  /** `deleteCeremony`. The guard comes first; deleting a missing ceremony makes the store fail. */
  method DeleteCeremony(db: Store, current: Option<User>, id: string) returns (r: Result<()>)
    requires db.Valid()
    modifies db
    ensures db.Valid()
    ensures var t := old(db.data);
      if RequireRole(current, ScrumMaster).Err? then r == Err(DeleteFailed) && db.data == t
      else if PromptCountOfCeremony(t, id) > 0 then r == Err(HasPrompts) && db.data == t
      else if id !in t.ceremonies then r == Err(DeleteFailed) && db.data == t
      else r == Ok(()) && db.data == RemoveCeremony(t, id)
  {
    var auth := RequireRole(current, ScrumMaster);
    if auth.Err? {
      return Err(DeleteFailed);
    }
    var promptCount := PromptCountOfCeremony(db.data, id);
    if promptCount > 0 {
      return Err(HasPrompts);
    }
    if id !in db.data.ceremonies {
      return Err(DeleteFailed);
    }
    NoPromptUses(db.data, id);
    db.DeleteCeremony(id);
    r := Ok(());
  }

  /** A delete removes exactly that ceremony. */
  lemma DeleteRemovesOne(t: Tables, id: Id)
    requires id in t.ceremonies
    ensures var t' := RemoveCeremony(t, id);
            && t'.ceremonies.Keys == t.ceremonies.Keys - {id}
            && |t'.ceremonies| == |t.ceremonies| - 1
            && (forall c :: c in t'.ceremonies ==> t'.ceremonies[c] == t.ceremonies[c])
            && t'.prompts == t.prompts
  {
  }
}
