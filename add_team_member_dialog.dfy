/** The dialog that adds a team member: its form, the record it builds, the
    callback and the form reset. It does not write the store itself; the
    team page's callback does. */
module AddMember {
  import opened Records

  datatype MemberForm = MemberForm(name: string, email: string, role: string)

  const EmptyMemberForm: MemberForm := MemberForm("", "", "")

  /** The record built on submit. `avatar` is the placeholder-image address
      generated from the name. */
  function NewMember(id: string, form: MemberForm, avatar: string): Member {
    Member(id, form.name, form.email, form.role, avatar, 0, 0)
  }

  /** A new member starts with no tasks assigned or completed and carries the
      form's name, address and role unchanged. */
  lemma NewMemberFields(id: string, form: MemberForm, avatar: string)
    ensures var m := NewMember(id, form, avatar);
      && m.tasksAssigned == 0 && m.tasksCompleted == 0
      && MemberForm(m.name, m.email, m.role) == form
      && m.id == id && m.avatar == avatar
  {
  }

  class AddTeamMemberDialog {
    var isLoading: bool
    var formData: MemberForm
    var open: bool

    constructor (open: bool)
      ensures this.open == open && !isLoading && formData == EmptyMemberForm
    {
      this.open := open;
      isLoading := false;
      formData := EmptyMemberForm;
    }

    /** `handleChange` / `handleSelectChange`: set one form field by name. */
    method SetField(name: string, value: string)
      modifies this
      ensures formData == match name
        case "name" => old(formData).(name := value)
        case "email" => old(formData).(email := value)
        case "role" => old(formData).(role := value)
        case _ => old(formData)
      ensures open == old(open) && isLoading == old(isLoading)
    {
      match name {
        case "name" => formData := formData.(name := value);
        case "email" => formData := formData.(email := value);
        case "role" => formData := formData.(role := value);
        case _ =>
      }
    }

    /** `handleSubmit`. `id` stands for `Date.now().toString()` and
        `hasCallback` for the presence of `onMemberAdded`. Returns the new
        record and the argument of the one callback call, if it is made;
        afterwards the form is empty, the dialog closed and loading over. */
    method HandleSubmit(id: string, avatar: string, hasCallback: bool)
      returns (newMember: Member, callbackArg: Option<Member>)
      modifies this
      ensures newMember == NewMember(id, old(formData), avatar)
      ensures callbackArg == if hasCallback then Some(newMember) else None
      ensures formData == EmptyMemberForm && !open && !isLoading
    {
      isLoading := true;
      newMember := NewMember(id, formData, avatar);
      callbackArg := if hasCallback then Some(newMember) else None;
      formData := EmptyMemberForm;
      open := false;
      isLoading := false;
    }
  }
}
