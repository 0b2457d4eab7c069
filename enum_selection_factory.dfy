/**
 * The drop-down choices for an enum property in the edit UI
 * (src/ImageProcessor.Web.Episerver.UI/Business/EnumSelectionFactory.cs):
 * a blank choice, then one per enum member with its localised name.
 * EPiServer's `LocalizationService` is the map `localized` from paths to
 * strings; the members are given in the order `Enum.GetValues` returns them.
 */
module EnumSelectionFactory {
  import opened Text

  /** A member of the enum: its name and its value. */
  datatype EnumMember = EnumMember(name: string, value: int)

  /** The enum type `TEnum`: its type name and its members. */
  datatype EnumType = EnumType(name: string, members: seq<EnumMember>)

  /** The value of a choice: the blank string or an enum member. */
  datatype ItemValue = Blank | Member(member: EnumMember)

  /** `SelectItem { Text, Value }` */
  datatype SelectItem = SelectItem(text: string, value: ItemValue)

  /** The localisation path of a member: `/property/enum/{type}/{member}`, both lower-cased. */
  function LocalizationPath(enumType: EnumType, member: EnumMember): string
  {
    "/property/enum/" + ToLower(enumType.name) + "/" + ToLower(member.name)
  }

  /** `GetValueName`: the localised string when there is one, else the member's name. */
  function GetValueName(enumType: EnumType, member: EnumMember, localized: map<string, string>): string
  {
    var path := LocalizationPath(enumType, member);
    if path in localized then localized[path] else member.name
  }

  /** The choice of one member. */
  function MemberItem(enumType: EnumType, member: EnumMember, localized: map<string, string>): SelectItem
  {
    SelectItem(GetValueName(enumType, member, localized), Member(member))
  }

  /** The choices of `members`, in their order. */
  function MemberItems(enumType: EnumType, members: seq<EnumMember>, localized: map<string, string>): seq<SelectItem>
  {
    if members == [] then [] else [MemberItem(enumType, members[0], localized)] + MemberItems(enumType, members[1..], localized)
  }

  /** What `GetSelections` yields. */
  function Selections(enumType: EnumType, localized: map<string, string>): seq<SelectItem>
  {
    [SelectItem("", Blank)] + MemberItems(enumType, enumType.members, localized)
  }

  lemma {:induction false} MemberItemsAppend(enumType: EnumType, members: seq<EnumMember>, member: EnumMember,
                                             localized: map<string, string>)
    ensures MemberItems(enumType, members + [member], localized)
      == MemberItems(enumType, members, localized) + [MemberItem(enumType, member, localized)]
  {
    if members == [] {
      assert members + [member] == [member];
    } else {
      assert (members + [member])[1..] == members[1..] + [member];
      MemberItemsAppend(enumType, members[1..], member, localized);
    }
  }

  /** `GetSelections`: the blank choice, then the loop over the members. */
  method GetSelections(enumType: EnumType, localized: map<string, string>) returns (items: seq<SelectItem>)
    ensures items == Selections(enumType, localized)
  {
    items := [SelectItem("", Blank)];
    var values := enumType.members;
    for k := 0 to |values|
      invariant items == [SelectItem("", Blank)] + MemberItems(enumType, values[..k], localized)
    {
      MemberItemsAppend(enumType, values[..k], values[k], localized);
      assert values[..k + 1] == values[..k] + [values[k]];
      items := items + [MemberItem(enumType, values[k], localized)];
    }
    assert values[..|values|] == values;
  }

  // ---------------------------------------------------------------------------------------------
  // Properties

  lemma {:induction false} MemberItemsShape(enumType: EnumType, members: seq<EnumMember>, localized: map<string, string>)
    ensures |MemberItems(enumType, members, localized)| == |members|
    ensures forall k :: 0 <= k < |members| ==> MemberItems(enumType, members, localized)[k] == MemberItem(enumType, members[k], localized)
  {
    if members != [] {
      MemberItemsShape(enumType, members[1..], localized);
    }
  }

  /**
   * One choice more than there are members: the first is blank in text and
   * value, and choice `k + 1` is member `k` with its name.
   */
  lemma SelectionsShape(enumType: EnumType, localized: map<string, string>)
    ensures |Selections(enumType, localized)| == |enumType.members| + 1
    ensures Selections(enumType, localized)[0] == SelectItem("", Blank)
    ensures forall k :: 0 <= k < |enumType.members| ==>
      Selections(enumType, localized)[k + 1].value == Member(enumType.members[k])
      && Selections(enumType, localized)[k + 1].text == GetValueName(enumType, enumType.members[k], localized)
  {
    MemberItemsShape(enumType, enumType.members, localized);
  }

  /**
   * The text is the string stored under the member's lower-case path when
   * there is one, and the member's name otherwise; the path does not depend
   * on the case of the names.
   */
  lemma ValueNameRule(enumType: EnumType, member: EnumMember, localized: map<string, string>)
    ensures LocalizationPath(enumType, member) in localized ==>
      GetValueName(enumType, member, localized) == localized[LocalizationPath(enumType, member)]
    ensures LocalizationPath(enumType, member) !in localized ==> GetValueName(enumType, member, localized) == member.name
    ensures GetValueName(enumType, member, map[]) == member.name
    ensures LocalizationPath(EnumType(ToLower(enumType.name), enumType.members), EnumMember(ToLower(member.name), member.value))
      == LocalizationPath(enumType, member)
  {
    LowerTwice(enumType.name);
    LowerTwice(member.name);
  }

  lemma LowerTwice(s: string)
    ensures ToLower(ToLower(s)) == ToLower(s)
  {
    assert forall i :: 0 <= i < |s| ==> LowerChar(LowerChar(s[i])) == LowerChar(s[i]);
  }

  /** `ImageFormat` with no translations offers a blank choice and the member names. */
  lemma SelectionsExample()
    ensures Selections(EnumType("ImageFormat", [EnumMember("Jpg", 0), EnumMember("Png", 1)]), map[])
      == [SelectItem("", Blank), SelectItem("Jpg", Member(EnumMember("Jpg", 0))), SelectItem("Png", Member(EnumMember("Png", 1)))]
  {
    var t := EnumType("ImageFormat", [EnumMember("Jpg", 0), EnumMember("Png", 1)]);
    assert t.members[1..] == [EnumMember("Png", 1)] && t.members[1..][1..] == [];
  }
}
