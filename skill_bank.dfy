/**
 * The content the skill assessment ships with: its question bank (ids, answer kinds and
 * skill mappings; the prose of the questions is left out) and its four weighted skill
 * categories.
 */
module SkillBank {
  import opened Common
  import opened SkillAssessment

  const TechnicalItems: seq<Item> := [
    Item("tech_001", Scale, [("Python Programming", [0, 1, 2, 3, 4]), ("JavaScript", [0, 1, 2, 3, 4]),
                             ("SQL", [0, 1, 2, 3, 4])]),
    Item("tech_002", MultipleChoice, [("Data Analysis", [0, 1, 2, 3, 4]), ("Python Programming", [0, 0, 1, 3, 4])]),
    Item("tech_003", MultipleChoice, [("Machine Learning", [0, 1, 2, 3, 4]), ("Data Analysis", [0, 0, 1, 2, 3])]),
    Item("tech_004", Scale, [("SQL", [0, 1, 2, 3, 4]), ("Data Analysis", [0, 1, 2, 3, 4])]),
    Item("tech_005", MultipleChoice, [("JavaScript", [0, 1, 2, 3, 4]), ("Python Programming", [0, 0, 1, 2, 3])])]

  const SoftItems: seq<Item> := [
    Item("soft_001", Scale, [("Communication", [1, 2, 3, 4, 4]), ("Leadership", [0, 1, 2, 3, 4]),
                             ("Problem Solving", [1, 2, 3, 3, 4])]),
    Item("soft_002", MultipleChoice, [("Problem Solving", [1, 2, 3, 4, 4]), ("Critical Thinking", [1, 2, 3, 4, 4])]),
    Item("soft_003", Scale, [("Communication", [0, 1, 2, 3, 4]), ("Leadership", [0, 1, 2, 3, 4])]),
    Item("soft_004", MultipleChoice, [("Project Management", [1, 2, 2, 3, 4]), ("Critical Thinking", [1, 2, 2, 3, 4])]),
    Item("soft_005", Scale, [("Communication", [1, 1, 2, 3, 4]), ("Leadership", [0, 1, 2, 3, 4])])]

  const InterestItems: seq<Item> := [
    Item("interest_001", MultipleChoice, []),
    Item("interest_002", MultipleChoice, []),
    Item("interest_003", Checkbox, []),
    Item("interest_004", MultipleChoice, []),
    Item("interest_005", MultipleChoice, [])]

  const ExperienceItems: seq<Item> := [
    Item("exp_001", MultipleChoice, []),
    Item("exp_002", MultipleChoice, []),
    Item("exp_003", Checkbox, []),
    Item("exp_004", Checkbox, [])]

  /** The bank the source ships: four phases of 5, 5, 5 and 4 items; the prose is left out. */
  const StandardBank: Bank := [
    Phase("technical_skills", TechnicalItems),
    Phase("soft_skills", SoftItems),
    Phase("interests_and_goals", InterestItems),
    Phase("experience_and_education", ExperienceItems)
  ]

  const StandardCategories: seq<Category> := [
    Category("Technical Skills", 0.4, ["Python Programming", "Machine Learning", "Data Analysis", "JavaScript", "SQL"]),
    Category("Soft Skills", 0.3, ["Communication", "Leadership", "Problem Solving", "Project Management",
                                  "Critical Thinking"]),
    Category("Domain Knowledge", 0.2, ["Business Analysis", "User Experience", "System Design", "Data Science"]),
    Category("Learning Agility", 0.1, ["Continuous Learning", "Adaptability", "Innovation"])
  ]

  /** Every mapping of the list names each skill once and gives it some levels. */
  predicate MappingsValid(items: seq<Item>)
  {
    forall q :: 0 <= q < |items| ==> ValidMapping(items[q].mapping)
  }

  lemma KeysOfMapping(m: Dict<seq<nat>>)
    ensures Keys(m) == seq(|m|, j requires 0 <= j < |m| => m[j].0)
  {
  }

  lemma TechnicalItemsValid()
    ensures MappingsValid(TechnicalItems)
  {
    forall q | 0 <= q < |TechnicalItems| ensures ValidMapping(TechnicalItems[q].mapping) {
      KeysOfMapping(TechnicalItems[q].mapping);
    }
  }

  lemma SoftItemsValid()
    ensures MappingsValid(SoftItems)
  {
    forall q | 0 <= q < |SoftItems| ensures ValidMapping(SoftItems[q].mapping) {
      KeysOfMapping(SoftItems[q].mapping);
    }
  }

  /** The shipped bank is usable and holds 19 items in four phases. */
  lemma StandardBankShape()
    ensures ValidBank(StandardBank)
    ensures |StandardBank| == 4 && TotalItems(StandardBank) == 19
  {
    var b := StandardBank;
    assert AllItems(b[..0]) == [];
    assert b[..1][..0] == b[..0] && b[..2][..1] == b[..1] && b[..3][..2] == b[..2] && b[..4][..3] == b[..3];
    assert b[..4] == b;
    assert |AllItems(b[..1])| == 5;
    assert |AllItems(b[..2])| == 10;
    assert |AllItems(b[..3])| == 15;
    TechnicalItemsValid();
    SoftItemsValid();
    forall p, q | 0 <= p < |b| && 0 <= q < |b[p].items|
      ensures ValidMapping(b[p].items[q].mapping)
    {
      if p == 0 {
        assert b[p].items == TechnicalItems;
      } else if p == 1 {
        assert b[p].items == SoftItems;
      } else {
        assert b[p].items[q].mapping == [];
      }
    }
  }

  lemma StandardCategoriesValid()
    ensures ValidCategories(StandardCategories)
  {
  }
}
