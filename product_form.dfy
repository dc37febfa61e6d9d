/** The admin "Add New Product" form: the category to sub-category lookup and the list
    editors for features, customization options and an option's available values. Every
    handler replaces the `formData` state field with a copy in which one list changed. */
module AdminProductForm {
  import opened Seqs
  import opened Text

  datatype Feature = Feature(tag: string, description: string, icon: string)

  /** `keyof ProductFeature` */
  datatype FeatureField = Tag | Description | Icon

  /** A customization option; `kind` is the option's `type`, prices in cents. */
  datatype CustomizationOption = CustomizationOption(
    name: string,
    kind: string,
    availableValues: seq<string>,
    minValue: int,
    maxValue: int,
    additionalPrice: int,
    isRequired: bool)

  /** `handleCustomizationChange(index, field, value)` with the field and a value of its type. */
  datatype OptionEdit =
    | SetName(name: string)
    | SetKind(kind: string)
    | SetAvailableValues(values: seq<string>)
    | SetMinValue(minValue: int)
    | SetMaxValue(maxValue: int)
    | SetAdditionalPrice(price: int)
    | SetRequired(required: bool)

  datatype ProductData = ProductData(
    name: string,
    description: string,
    price: int,
    imgUrl: string,
    category: string,
    isCustomizable: bool,
    isActive: bool,
    features: seq<Feature>,
    customizationOptions: seq<CustomizationOption>)

  /** The keys of `categoryMap`, in order. */
  const CategoryKeys: seq<string> := ["Handmade Jewelry", "Eco-Friendly Gift Items", "Personalized Keepsakes"]

  /** `categoryMap[category] || []` */
  function SubCategoriesOf(category: string): seq<string>
  {
    if category == "Handmade Jewelry" then
      ["Necklaces", "Bracelets", "Earrings", "Rings", "Anklets"]
    else if category == "Eco-Friendly Gift Items" then
      ["Reusable Bags", "Bamboo Products", "Upcycled Decor", "Natural Candles", "Sustainable Kitchenware"]
    else if category == "Personalized Keepsakes" then
      ["Personalized Photo Frames", "Customized Keychains", "Engraved Wooden Plaques", "Monogrammed Items", "Memory Books"]
    else []
  }

  /** Each of the three categories offers five sub-categories; any other value, the
      "Select Category" placeholder `""` included, offers none. */
  lemma SubCategoriesLookup(category: string)
    ensures category in CategoryKeys ==> |SubCategoriesOf(category)| == 5
    ensures category !in CategoryKeys <==> SubCategoriesOf(category) == []
    ensures SubCategoriesOf("") == []
  {
  }

  /** `feature[field]` */
  function FeatureFieldOf(feature: Feature, field: FeatureField): string
  {
    match field
    case Tag => feature.tag
    case Description => feature.description
    case Icon => feature.icon
  }

  /** `{ ...feature, [field]: value }` */
  function WithFeatureField(feature: Feature, field: FeatureField, value: string): Feature
  {
    match field
    case Tag => feature.(tag := value)
    case Description => feature.(description := value)
    case Icon => feature.(icon := value)
  }

  /** The edited field reads back the new value, the other two are untouched, and putting
      the old value back restores the feature. */
  lemma FeatureFieldRoundTrip(feature: Feature, field: FeatureField, value: string)
    ensures FeatureFieldOf(WithFeatureField(feature, field, value), field) == value
    ensures forall g :: g != field ==> FeatureFieldOf(WithFeatureField(feature, field, value), g) == FeatureFieldOf(feature, g)
    ensures WithFeatureField(WithFeatureField(feature, field, value), field, FeatureFieldOf(feature, field)) == feature
  {
  }

  /** The features after `handleFeatureChange(index, field, value)`. */
  function FeaturesChanged(features: seq<Feature>, index: int, field: FeatureField, value: string): seq<Feature>
    requires 0 <= index < |features|
  {
    features[index := WithFeatureField(features[index], field, value)]
  }

  /** Only feature `index`, and in it only `field`, changes. */
  lemma FeatureChangeIsLocal(features: seq<Feature>, index: int, field: FeatureField, value: string)
    requires 0 <= index < |features|
    ensures |FeaturesChanged(features, index, field, value)| == |features|
    ensures forall j :: 0 <= j < |features| && j != index ==> FeaturesChanged(features, index, field, value)[j] == features[j]
    ensures FeatureFieldOf(FeaturesChanged(features, index, field, value)[index], field) == value
    ensures forall g :: g != field ==>
      FeatureFieldOf(FeaturesChanged(features, index, field, value)[index], g) == FeatureFieldOf(features[index], g)
  {
    FeatureFieldRoundTrip(features[index], field, value);
  }

  /** The feature `addFeature` appends. */
  const NewFeature := Feature("", "", "\U{2728}")

  /** `removeFeature(index)` keeps every feature but the one at `index`, in order; an index
      that is not a position removes nothing. */
  lemma RemoveFeatureDropsOne(features: seq<Feature>, index: int)
    ensures 0 <= index < |features| ==> |RemoveAt(features, index)| == |features| - 1
    ensures 0 <= index < |features| ==>
      multiset(RemoveAt(features, index)) + multiset{features[index]} == multiset(features)
    ensures !(0 <= index < |features|) ==> RemoveAt(features, index) == features
  {
    if 0 <= index < |features| {
      RemoveAtCount(features, index);
    }
  }

  /** `option[field]`, as the edit that would write it. */
  function CurrentAs(option: CustomizationOption, edit: OptionEdit): OptionEdit
  {
    match edit
    case SetName(_) => SetName(option.name)
    case SetKind(_) => SetKind(option.kind)
    case SetAvailableValues(_) => SetAvailableValues(option.availableValues)
    case SetMinValue(_) => SetMinValue(option.minValue)
    case SetMaxValue(_) => SetMaxValue(option.maxValue)
    case SetAdditionalPrice(_) => SetAdditionalPrice(option.additionalPrice)
    case SetRequired(_) => SetRequired(option.isRequired)
  }

  /** `{ ...option, [field]: value }` */
  function ApplyEdit(option: CustomizationOption, edit: OptionEdit): CustomizationOption
  {
    match edit
    case SetName(v) => option.(name := v)
    case SetKind(v) => option.(kind := v)
    case SetAvailableValues(v) => option.(availableValues := v)
    case SetMinValue(v) => option.(minValue := v)
    case SetMaxValue(v) => option.(maxValue := v)
    case SetAdditionalPrice(v) => option.(additionalPrice := v)
    case SetRequired(v) => option.(isRequired := v)
  }

  /** The edited field reads back the new value, and writing the old value back restores
      the option, so no other field moved. */
  lemma ApplyEditRoundTrip(option: CustomizationOption, edit: OptionEdit)
    ensures CurrentAs(ApplyEdit(option, edit), edit) == edit
    ensures ApplyEdit(ApplyEdit(option, edit), CurrentAs(option, edit)) == option
  {
  }

  /** The options after `handleCustomizationChange(index, field, value)`. */
  function OptionsChanged(options: seq<CustomizationOption>, index: int, edit: OptionEdit): seq<CustomizationOption>
    requires 0 <= index < |options|
  {
    options[index := ApplyEdit(options[index], edit)]
  }

  /** Only option `index`, and in it only the edited field, changes. */
  lemma OptionChangeIsLocal(options: seq<CustomizationOption>, index: int, edit: OptionEdit)
    requires 0 <= index < |options|
    ensures |OptionsChanged(options, index, edit)| == |options|
    ensures forall j :: 0 <= j < |options| && j != index ==> OptionsChanged(options, index, edit)[j] == options[j]
    ensures CurrentAs(OptionsChanged(options, index, edit)[index], edit) == edit
    ensures ApplyEdit(OptionsChanged(options, index, edit)[index], CurrentAs(options[index], edit)) == options[index]
  {
    ApplyEditRoundTrip(options[index], edit);
  }

  /** The option `addCustomizationOption` appends. */
  const NewOption := CustomizationOption("", "text", [], 0, 0, 0, false)

  /** `removeCustomizationOption(index)` keeps every option but the one at `index`. */
  lemma RemoveOptionDropsOne(options: seq<CustomizationOption>, index: int)
    ensures 0 <= index < |options| ==> |RemoveAt(options, index)| == |options| - 1
    ensures 0 <= index < |options| ==>
      multiset(RemoveAt(options, index)) + multiset{options[index]} == multiset(options)
    ensures !(0 <= index < |options|) ==> RemoveAt(options, index) == options
  {
    if 0 <= index < |options| {
      RemoveAtCount(options, index);
    }
  }

  /** The values after Enter in the "Add value" box holding `input`. */
  function ValuesAfterEnter(values: seq<string>, input: string): seq<string>
  {
    var value := Trim(input);
    if value != "" then values + [value] else values
  }

  /** Enter appends the trimmed input when it is not blank, even if the list already has
      it; a blank input changes nothing. */
  lemma ValuesAfterEnterMeaning(values: seq<string>, input: string)
    ensures AllWhitespace(input) ==> ValuesAfterEnter(values, input) == values
    ensures !AllWhitespace(input) ==> ValuesAfterEnter(values, input) == values + [Trim(input)]
    ensures !AllWhitespace(input) ==>
      multiset(ValuesAfterEnter(values, input))[Trim(input)] == multiset(values)[Trim(input)] + 1
  {
    TrimEmptyIffAllWhitespace(input);
  }

  /** The value Enter adds for a non-blank input is not empty and has no surrounding
      whitespace. */
  lemma EnteredValueIsTrimmed(input: string)
    requires !AllWhitespace(input)
    ensures Trim(input) != "" && !IsWhitespace(Trim(input)[0]) && !IsWhitespace(Trim(input)[|Trim(input)| - 1])
  {
    TrimEmptyIffAllWhitespace(input);
    TrimIsInfix(input);
  }

  /** `newValues.splice(valueIndex, 1)` for a rendered position removes exactly that value. */
  lemma SpliceRemovesOne(values: seq<string>, valueIndex: int)
    requires 0 <= valueIndex < |values|
    ensures |RemoveAt(values, valueIndex)| == |values| - 1
    ensures forall j :: 0 <= j < valueIndex ==> RemoveAt(values, valueIndex)[j] == values[j]
    ensures forall j :: valueIndex <= j < |values| - 1 ==> RemoveAt(values, valueIndex)[j] == values[j + 1]
  {
    forall j | 0 <= j < |values| - 1
      ensures RemoveAt(values, valueIndex)[j] == if j < valueIndex then values[j] else values[j + 1]
    {
      RemoveAtShifts(values, valueIndex, j);
    }
  }

  /** The form's state fields. */
  class ProductForm {
    var formData: ProductData
    var availableSubCategories: seq<string>

    constructor ()
      ensures formData == ProductData("", "", 0, "", "", false, true, [], [])
      ensures availableSubCategories == []
    {
      formData := ProductData("", "", 0, "", "", false, true, [], []);
      availableSubCategories := [];
    }

    /** `handleCategoryChange(category)` */
    method HandleCategoryChange(category: string)
      modifies this
      ensures formData == old(formData).(category := category)
      ensures availableSubCategories == SubCategoriesOf(category)
    {
      formData := formData.(category := category);
      availableSubCategories := SubCategoriesOf(category);
    }

    /** `handleFeatureChange(index, field, value)`, called from the row at `index`. */
    method HandleFeatureChange(index: int, field: FeatureField, value: string)
      requires 0 <= index < |formData.features|
      modifies this
      ensures formData == old(formData).(features := FeaturesChanged(old(formData).features, index, field, value))
      ensures availableSubCategories == old(availableSubCategories)
    {
      var updated := formData.features;
      updated := updated[index := WithFeatureField(updated[index], field, value)];
      formData := formData.(features := updated);
    }

    /** `addFeature` */
    method AddFeature()
      modifies this
      ensures formData == old(formData).(features := old(formData).features + [NewFeature])
      ensures availableSubCategories == old(availableSubCategories)
    {
      formData := formData.(features := formData.features + [NewFeature]);
    }

    /** `removeFeature(index)` */
    method RemoveFeature(index: int)
      modifies this
      ensures formData == old(formData).(features := RemoveAt(old(formData).features, index))
      ensures availableSubCategories == old(availableSubCategories)
    {
      formData := formData.(features := RemoveAt(formData.features, index));
    }

    /** `handleCustomizationChange(index, field, value)`, called from the option at `index`. */
    method HandleCustomizationChange(index: int, edit: OptionEdit)
      requires 0 <= index < |formData.customizationOptions|
      modifies this
      ensures formData == old(formData).(customizationOptions :=
        OptionsChanged(old(formData).customizationOptions, index, edit))
      ensures availableSubCategories == old(availableSubCategories)
    {
      var updated := formData.customizationOptions;
      updated := updated[index := ApplyEdit(updated[index], edit)];
      formData := formData.(customizationOptions := updated);
    }

    /** `addCustomizationOption` */
    method AddCustomizationOption()
      modifies this
      ensures formData == old(formData).(customizationOptions := old(formData).customizationOptions + [NewOption])
      ensures availableSubCategories == old(availableSubCategories)
    {
      formData := formData.(customizationOptions := formData.customizationOptions + [NewOption]);
    }

    /** `removeCustomizationOption(index)` */
    method RemoveCustomizationOption(index: int)
      modifies this
      ensures formData == old(formData).(customizationOptions := RemoveAt(old(formData).customizationOptions, index))
      ensures availableSubCategories == old(availableSubCategories)
    {
      formData := formData.(customizationOptions := RemoveAt(formData.customizationOptions, index));
    }

    /** Enter in the "Add value" box of option `index`. */
    method EnterAvailableValue(index: int, input: string)
      requires 0 <= index < |formData.customizationOptions|
      modifies this
      ensures var values := old(formData).customizationOptions[index].availableValues;
        formData == if AllWhitespace(input) then old(formData)
          else old(formData).(customizationOptions := OptionsChanged(old(formData).customizationOptions,
            index, SetAvailableValues(values + [Trim(input)])))
      ensures availableSubCategories == old(availableSubCategories)
    {
      TrimEmptyIffAllWhitespace(input);
      var value := Trim(input);
      if value != "" {
        var values := formData.customizationOptions[index].availableValues;
        HandleCustomizationChange(index, SetAvailableValues(values + [value]));
      }
    }

    /** The × button of value `valueIndex` in option `index`. */
    method RemoveAvailableValue(index: int, valueIndex: int)
      requires 0 <= index < |formData.customizationOptions|
      requires 0 <= valueIndex < |formData.customizationOptions[index].availableValues|
      modifies this
      ensures var values := old(formData).customizationOptions[index].availableValues;
        formData == old(formData).(customizationOptions := OptionsChanged(old(formData).customizationOptions,
          index, SetAvailableValues(values[..valueIndex] + values[valueIndex + 1..])))
      ensures availableSubCategories == old(availableSubCategories)
    {
      var newValues := formData.customizationOptions[index].availableValues;
      newValues := RemoveAt(newValues, valueIndex);
      HandleCustomizationChange(index, SetAvailableValues(newValues));
    }
  }
}
